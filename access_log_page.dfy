/**
 * The access-log page: the ten-wide pagination window that `Pagenation`
 * renders from `page` and `totalPages`, and the `page` counter that the
 * page component keeps and changes through its three handlers.
 */
module AccessLogPage {

  /** Number of page buttons shown at once. */
  const BlockSize: int := 10

  // ---------------------------------------------------------------------
  // Pagination window (pure)
  // ---------------------------------------------------------------------

  /**
   * First page of the block of ten that holds `page`:
   * `Math.floor((page - 1) / 10) * 10 + 1`.  Dafny's `/` with a positive
   * divisor rounds toward negative infinity, as `Math.floor` does.
   */
  function WindowStart(page: int): (start: int)
    ensures (start - 1) % BlockSize == 0
    ensures start <= page < start + BlockSize
    ensures page >= 1 ==> start >= 1
  {
    (page - 1) / BlockSize * BlockSize + 1
  }

  /** The `length` argument given to `Array.from`, before any clamping. */
  function RequestedLength(page: int, totalPages: int): (n: int)
    ensures n <= BlockSize
  {
    var offset := WindowStart(page);
    if totalPages - offset < BlockSize then totalPages - offset + 1 else BlockSize
  }

  /**
   * `pageNumbers`: `Array.from` with the requested length, where a negative
   * length gives an empty array, and entry `i` equal to `offset + i`.
   */
  function PageNumbers(page: int, totalPages: int): (ps: seq<int>)
    ensures |ps| <= BlockSize
    ensures |ps| == if totalPages - WindowStart(page) < BlockSize
                    then Max(0, totalPages - WindowStart(page) + 1) else BlockSize
    ensures forall i :: 0 <= i < |ps| ==> ps[i] == WindowStart(page) + i
    ensures forall i, j :: 0 <= i < j < |ps| ==> ps[i] < ps[j]
    ensures page >= 1 ==> forall i :: 0 <= i < |ps| ==> 1 <= ps[i] <= totalPages
    ensures 1 <= page <= totalPages ==> page in ps
  {
    var offset := WindowStart(page);
    var length := RequestedLength(page, totalPages);
    var ps := seq(if length < 0 then 0 else length, i => offset + i);
    assert 1 <= page <= totalPages ==> ps[page - offset] == page;
    ps
  }

  /** The prev button is disabled when `page <= 1`. */
  predicate PrevDisabled(page: int)
  {
    page <= 1
  }

  /** The next button is disabled when `page >= totalPages`. */
  predicate NextDisabled(page: int, totalPages: int)
  {
    page >= totalPages
  }

  /** A listed number is rendered with the active class when it equals `page`. */
  predicate IsActive(p: int, page: int)
  {
    p == page
  }

  /** One rendered `li` of the window. */
  datatype PageButton = PageButton(number: int, active: bool)

  /** What `Pagenation` renders: prev, the listed numbers, next. */
  datatype PaginationView = PaginationView(prevDisabled: bool, buttons: seq<PageButton>, nextDisabled: bool)

  /**
   * The rendered pagination control for `page` out of `totalPages`: one
   * button per entry of the window, in order, so at most ten increasing real
   * page numbers, of which exactly the one equal to
   * `page` is active, and that one is there whenever `page` is a real page.
   */
  function Pagenation(page: int, totalPages: int): (v: PaginationView)
    ensures |v.buttons| == |PageNumbers(page, totalPages)|
    ensures forall i :: 0 <= i < |v.buttons| ==> v.buttons[i].number == PageNumbers(page, totalPages)[i]
    ensures |v.buttons| <= BlockSize
    ensures forall i, j :: 0 <= i < j < |v.buttons| ==> v.buttons[i].number < v.buttons[j].number
    ensures page >= 1 ==> forall i :: 0 <= i < |v.buttons| ==> 1 <= v.buttons[i].number <= totalPages
    ensures forall i :: 0 <= i < |v.buttons| ==> (v.buttons[i].active <==> v.buttons[i].number == page)
    ensures forall i, j :: 0 <= i < j < |v.buttons| ==> !(v.buttons[i].active && v.buttons[j].active)
    ensures 1 <= page <= totalPages ==> exists i :: 0 <= i < |v.buttons| && v.buttons[i].active
  {
    var ps := PageNumbers(page, totalPages);
    var buttons := seq(|ps|, i requires 0 <= i < |ps| => PageButton(ps[i], IsActive(ps[i], page)));
    assert 1 <= page <= totalPages ==> buttons[page - WindowStart(page)].active;
    PaginationView(PrevDisabled(page), buttons, NextDisabled(page, totalPages))
  }

  // ---------------------------------------------------------------------
  // Properties of the window
  // ---------------------------------------------------------------------

  /**
   * Membership, stated independently of the construction: for a page counted
   * from 1, `p` is listed exactly when it is a real page in the same block of
   * ten as `page`.
   */
  lemma WindowMembership(page: int, totalPages: int, p: int)
    requires page >= 1
    ensures p in PageNumbers(page, totalPages) <==>
      1 <= p <= totalPages && (p - 1) / BlockSize == (page - 1) / BlockSize
  {
    var ps := PageNumbers(page, totalPages);
    var start := WindowStart(page);
    var b := (page - 1) / BlockSize;
    assert start == b * BlockSize + 1;
    if p in ps {
      var i :| 0 <= i < |ps| && ps[i] == p;
      assert p - 1 == b * BlockSize + i;
      DivOfBlock(b, i);
    }
    if 1 <= p <= totalPages && (p - 1) / BlockSize == b {
      assert ps[p - start] == p;
    }
  }

  /** `(b * 10 + i) / 10 == b` for a digit `i`. */
  lemma DivOfBlock(b: int, i: int)
    requires 0 <= i < BlockSize
    ensures (b * BlockSize + i) / BlockSize == b
  {
  }

  /** Prev is enabled exactly when a lower page exists; next exactly when a higher one does. */
  lemma PrevNextEnabled(page: int, totalPages: int)
    ensures !Pagenation(page, totalPages).prevDisabled <==> page > 1
    ensures !Pagenation(page, totalPages).nextDisabled <==> page < totalPages
    ensures totalPages >= 1 ==> Pagenation(totalPages, totalPages).nextDisabled
    ensures Pagenation(1, totalPages).prevDisabled
  {
  }

  /** No pages: nothing listed and both arrows disabled. */
  lemma NoPages()
    ensures Pagenation(1, 0) == PaginationView(true, [], true)
  {
    assert PageNumbers(1, 0) == [];
  }

  /** Page 5 of 23 shows pages 1 to 10. */
  lemma FirstBlockExample()
    ensures PageNumbers(5, 23) == [1, 2, 3, 4, 5, 6, 7, 8, 9, 10]
    ensures !Pagenation(5, 23).prevDisabled && !Pagenation(5, 23).nextDisabled
  {
  }

  /** Page 15 of 23 shows pages 11 to 20. */
  lemma MiddleBlockExample()
    ensures WindowStart(15) == 11
    ensures PageNumbers(15, 23) == [11, 12, 13, 14, 15, 16, 17, 18, 19, 20]
  {
  }

  /** Page 23 of 23 shows pages 21 to 23, and next is disabled. */
  lemma LastBlockExample()
    ensures WindowStart(23) == 21
    ensures PageNumbers(23, 23) == [21, 22, 23]
    ensures Pagenation(23, 23).nextDisabled
  {
  }

  // ---------------------------------------------------------------------
  // The page counter
  // ---------------------------------------------------------------------

  /** The controls a user can click in the pagination block. */
  datatype Control = Prev | Next | PageNumber(p: int)

  /**
   * Whether a click on `c` reaches its handler: arrows when enabled, numbers
   * when listed.  A control that fires always leads to a real page.
   */
  function Fires(page: int, totalPages: int, c: Control): (fired: bool)
    ensures fired && c.Prev? ==> page - 1 >= 1
    ensures fired && c.Next? ==> page + 1 <= totalPages
    ensures fired && c.PageNumber? && page >= 1 ==> 1 <= c.p <= totalPages
  {
    match c
    case Prev => !PrevDisabled(page)
    case Next => !NextDisabled(page, totalPages)
    case PageNumber(p) => p in PageNumbers(page, totalPages)
  }

  /**
   * `page` after a click on `c`: the handler's new page if it fires, the old
   * one otherwise.  One click keeps `page >= 1`, and keeps it within
   * `max(1, totalPages)` when it already was.
   */
  function AfterClick(page: int, totalPages: int, c: Control): (next: int)
    ensures !Fires(page, totalPages, c) ==> next == page
    ensures page >= 1 ==> next >= 1
    ensures 1 <= page <= Max(1, totalPages) ==> next <= Max(1, totalPages)
  {
    if !Fires(page, totalPages, c) then page
    else match c
      case Prev => page - 1
      case Next => page + 1
      case PageNumber(p) => p
  }

  /** `page` after a run of clicks while the total stays `totalPages`. */
  function AfterClicks(page: int, totalPages: int, cs: seq<Control>): (last: int)
    decreases cs
  {
    if cs == [] then page
    else AfterClicks(AfterClick(page, totalPages, cs[0]), totalPages, cs[1..])
  }

  function Max(a: int, b: int): (m: int)
    ensures m >= a && m >= b && (m == a || m == b)
  {
    if a < b then b else a
  }

  /** Any run of clicks from a page in `1..max(1, totalPages)` keeps `1 <= page <= max(1, totalPages)`. */
  lemma {:induction false} ClicksInRange(page: int, totalPages: int, cs: seq<Control>)
    requires 1 <= page <= Max(1, totalPages)
    ensures 1 <= AfterClicks(page, totalPages, cs) <= Max(1, totalPages)
    decreases cs
  {
    if cs != [] {
      ClicksInRange(AfterClick(page, totalPages, cs[0]), totalPages, cs[1..]);
    }
  }

  /** The page component's `page` state and its handlers. */
  class PageState {
    var page: int

    ghost predicate Valid()
      reads this
    {
      page >= 1
    }

    /** `useState(1)`. */
    constructor ()
      ensures Valid() && page == 1
    {
      page := 1;
    }

    /** `onPageIncrease`: `setPage(page + 1)`. */
    method OnPageIncrease()
      modifies this
      ensures page == old(page) + 1
    {
      page := page + 1;
    }

    /** `onPageDecrease`: `setPage(page - 1)`. */
    method OnPageDecrease()
      modifies this
      ensures page == old(page) - 1
    {
      page := page - 1;
    }

    /** `onPageChange(p)`: `setPage(p)`. */
    method OnPageChange(p: int)
      modifies this
      ensures page == p
    {
      page := p;
    }

    /**
     * A click on `c` while the window shows `totalPages`: a disabled arrow or
     * a number that is not listed does nothing; otherwise its handler runs.
     */
    method Click(c: Control, totalPages: int) returns (fired: bool)
      requires Valid()
      modifies this
      ensures Valid()
      ensures fired == Fires(old(page), totalPages, c)
      ensures page == AfterClick(old(page), totalPages, c)
      ensures old(page) <= Max(1, totalPages) ==> page <= Max(1, totalPages)
    {
      fired := Fires(page, totalPages, c);
      if fired {
        match c
        case Prev => OnPageDecrease();
        case Next => OnPageIncrease();
        case PageNumber(p) => OnPageChange(p);
      }
    }
  }
}
