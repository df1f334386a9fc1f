/**
 * Paging as the services do it on in-memory listings: LINQ's Skip and
 * Take, and the page count of PaginatedDTO.
 */
module Paging {

  /** Enumerable.Skip: a count at or below zero skips nothing. */
  function Skip<T>(s: seq<T>, n: int): seq<T> {
    if n <= 0 then s else if n >= |s| then [] else s[n..]
  }

  /** Enumerable.Take: a count at or below zero takes nothing. */
  function Take<T>(s: seq<T>, n: int): seq<T> {
    if n <= 0 then [] else if n >= |s| then s else s[..n]
  }

  /** Skip(offset).Take(size). */
  function Window<T>(s: seq<T>, offset: int, size: int): (w: seq<T>)
    ensures |w| <= |s|
    ensures size >= 0 ==> |w| <= size
  {
    Take(Skip(s, offset), size)
  }

  /** Where page `page` (counted from 1) of size `size` starts,
      computed without overflow. */
  function Offset(page: int, size: int): int {
    (page - 1) * size
  }

  /** Page `page` of size `size`. */
  function PageOf<T>(s: seq<T>, page: int, size: int): seq<T> {
    Window(s, Offset(page, size), size)
  }

  /** A window is the run of the listing that starts at the offset (at 0
      for a negative offset) and holds `size` elements, or fewer at the
      end of the listing. */
  lemma WindowSlice<T>(s: seq<T>, offset: int, size: int)
    ensures var start := if offset < 0 then 0 else offset;
            var w := Window(s, offset, size);
            && |w| <= (if size < 0 then 0 else size)
            && (start < |s| && size > 0 ==>
                  |w| == (if start + size <= |s| then size else |s| - start)
                  && w == s[start..start + |w|])
            && (start >= |s| ==> w == [])
  {
  }

  /** PaginatedDTO.TotalPages: (int)Math.Ceiling((double)TotalItems /
      PageSize). With a count below 2^31 and a page size from 1 to 100 a
      quotient that is not whole lies at least 1/100 away from every
      integer, far more than the rounding error of a double, so the
      ceiling is the exact one. */
  function TotalPages(totalItems: nat, pageSize: int): (n: nat)
    requires pageSize >= 1
    ensures n * pageSize >= totalItems
    ensures totalItems > 0 ==> (n - 1) * pageSize < totalItems
    ensures totalItems == 0 ==> n == 0
  {
    var n := (totalItems + pageSize - 1) / pageSize;
    assert n * pageSize + (totalItems + pageSize - 1) % pageSize == totalItems + pageSize - 1;
    n
  }

  lemma MulLe(a: int, b: int, c: int)
    requires a <= b && c >= 0
    ensures a * c <= b * c
  {
  }

  /** A page is the run of the listing that starts at (page - 1) * size,
      at most size long, and it is empty exactly past TotalPages. */
  lemma PageSlice<T>(s: seq<T>, page: int, size: int)
    requires page >= 1 && size >= 1
    ensures var off := Offset(page, size);
            var p := PageOf(s, page, size);
            && off >= 0
            && |p| <= size
            && (off < |s| ==> off + |p| <= |s| && p == s[off..off + |p|])
            && (p != [] <==> page <= TotalPages(|s|, size))
  {
    MulLe(0, page - 1, size);
    WindowSlice(s, (page - 1) * size, size);
    PagesCover(s, page, size);
  }

  /** The pages from 1 to TotalPages are exactly the non-empty ones. */
  lemma PagesCover<T>(s: seq<T>, page: int, size: int)
    requires page >= 1 && size >= 1
    ensures PageOf(s, page, size) != [] <==> page <= TotalPages(|s|, size)
  {
    var n := TotalPages(|s|, size);
    WindowSlice(s, (page - 1) * size, size);
    if page <= n {
      MulLe(page - 1, n - 1, size);
    } else {
      MulLe(n, page - 1, size);
    }
  }
}
