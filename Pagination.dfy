/**
 * `paginate_items` and the page arithmetic of `handle_list_query`: pages of
 * `PAGE_SIZE` (3) consecutive items, a cursor clamped into range, and a
 * footer naming the current and total page when there is more than one.
 */
module Pagination {
  import opened Replies

  /** `PAGE_SIZE` */
  const PageSize := 3

  function Min(a: int, b: int): int { if a <= b then a else b }

  function Max(a: int, b: int): int { if a >= b then a else b }

  /** `paginate_items(items)`: `[items[i:i+3] for i in range(0, len(items), 3)]`.
      The page count is the least number of pages of three that hold every item. */
  function Paginate<T>(items: seq<T>): (pages: seq<seq<T>>)
    ensures |pages| * PageSize >= |items|
    ensures |pages| == 0 || (|pages| - 1) * PageSize < |items|
    ensures pages == [] <==> items == []
  {
    var count := (|items| + PageSize - 1) / PageSize;
    seq(count, i requires 0 <= i < count => items[i * PageSize..Min(i * PageSize + PageSize, |items|)])
  }

  /** The pages laid end to end. */
  function Flatten<T>(pages: seq<seq<T>>): seq<T>
    decreases |pages|
  {
    if pages == [] then [] else pages[0] + Flatten(pages[1..])
  }

  /** Every page but the last holds exactly three items; the last holds one to three. */
  lemma PageSizes<T>(items: seq<T>)
    ensures var pages := Paginate(items);
      (forall i | 0 <= i < |pages| - 1 :: |pages[i]| == PageSize)
      && (pages != [] ==> 1 <= |pages[|pages| - 1]| <= PageSize)
  {
  }

  /** Item `k` is shown on page `k / 3`, at position `k % 3`. */
  lemma PageOfItem<T>(items: seq<T>, k: nat)
    requires k < |items|
    ensures k / PageSize < |Paginate(items)|
    ensures k % PageSize < |Paginate(items)[k / PageSize]|
    ensures Paginate(items)[k / PageSize][k % PageSize] == items[k]
  {
  }

  /** Page `i` past the first is page `i - 1` of the items after the first page. */
  lemma PaginateShift<T>(items: seq<T>, i: nat)
    requires |items| > PageSize && 0 < i < |Paginate(items)|
    ensures i - 1 < |Paginate(items[PageSize..])|
    ensures Paginate(items)[i] == Paginate(items[PageSize..])[i - 1]
  {
    var n := |items|;
    var tail := items[PageSize..];
    var lo := (i - 1) * PageSize;
    var hi := Min(lo + PageSize, n - PageSize);
    assert Paginate(tail)[i - 1] == tail[lo..hi];
    assert tail[lo..hi] == items[lo + PageSize..hi + PageSize];
    assert Paginate(items)[i] == items[i * PageSize..Min(i * PageSize + PageSize, n)];
  }

  lemma PaginateUnfold<T>(items: seq<T>)
    requires items != []
    ensures |items| <= PageSize ==> Paginate(items) == [items]
    ensures |items| > PageSize ==>
      Paginate(items) == [items[..PageSize]] + Paginate(items[PageSize..])
  {
    var pages := Paginate(items);
    var n := |items|;
    if n > PageSize {
      var tail := items[PageSize..];
      var rest := Paginate(tail);
      assert |pages| == |rest| + 1;
      forall i | 0 <= i < |pages| ensures pages[i] == ([items[..PageSize]] + rest)[i] {
        if i > 0 {
          PaginateShift(items, i);
        }
      }
    } else {
      assert |pages| == 1;
      assert pages[0] == items[0..n];
      assert items[0..n] == items;
      assert pages == [items];
    }
  }

  /** The pages, read in order, are exactly the items: nothing lost, nothing repeated. */
  lemma {:induction false} FlattenPaginate<T>(items: seq<T>)
    ensures Flatten(Paginate(items)) == items
    decreases |items|
  {
    if items != [] {
      PaginateUnfold(items);
      if |items| > PageSize {
        FlattenPaginate(items[PageSize..]);
        var pages := Paginate(items);
        assert pages[1..] == Paginate(items[PageSize..]);
        assert items[..PageSize] + items[PageSize..] == items;
      } else {
        assert Paginate(items)[1..] == [];
        assert items + [] == items;
      }
    }
  }

  /** `max(0, min(page, count - 1))` */
  function PageIndex(page: int, count: nat): (r: nat)
    requires count > 0
    ensures r < count
    ensures 0 <= page < count ==> r == page
    ensures page < 0 ==> r == 0
    ensures page >= count ==> r == count - 1
  {
    Max(0, Min(page, count - 1))
  }

  /** The pagination footer for page `index` of `count`, or nothing for a single page. */
  function Footer(index: nat, count: nat): string {
    if count > 1 then PaginationFooter(index + 1, count) else ""
  }
}
