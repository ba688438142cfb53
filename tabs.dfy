/**
 * Tab selection of the main screen: the page clamp and the controller that
 * remembers the selected tab. Both are specified by what their unit tests
 * assert; the clamp is the common rule those assertions share.
 */
module Tabs {
  import opened KotlinStd

  /** `clampTabIndex(currentPage, tabCount)`: the nearest valid tab index, or 0 without tabs. */
  function ClampTabIndex(currentPage: int, tabCount: int): (r: int)
    ensures tabCount <= 0 ==> r == 0
    ensures tabCount > 0 ==> 0 <= r < tabCount
    ensures tabCount > 0 && currentPage >= tabCount ==> r == tabCount - 1
    ensures currentPage < 0 ==> r == 0
    ensures 0 <= currentPage < tabCount ==> r == currentPage
  {
    if tabCount <= 0 then 0 else CoerceIn(currentPage, 0, tabCount - 1)
  }

  /** The selected tab of a pager with `pageCount` pages. */
  class TabStateController {
    const pageCount: int
    var selectedTab: int

    /** The selection is always a valid index (0 when there are no pages). */
    ghost predicate Valid()
      reads this
    {
      selectedTab == ClampTabIndex(selectedTab, pageCount)
    }

    constructor (pageCount: int)
      ensures Valid()
      ensures this.pageCount == pageCount && selectedTab == 0
    {
      this.pageCount := pageCount;
      selectedTab := 0;
    }

    /** A tab chosen by the user; out-of-range requests go to the nearest tab. */
    method SelectTab(index: int)
      modifies this
      ensures Valid()
      ensures selectedTab == ClampTabIndex(index, pageCount)
    {
      selectedTab := ClampTabIndex(index, pageCount);
    }

    /** The pager settled on `page`; this overrides any earlier selection. */
    method OnPagerPageChanged(page: int)
      modifies this
      ensures Valid()
      ensures selectedTab == ClampTabIndex(page, pageCount)
    {
      selectedTab := ClampTabIndex(page, pageCount);
    }

    /** Back to the first tab, whatever was selected. */
    method Reset()
      modifies this
      ensures Valid()
      ensures selectedTab == 0
    {
      selectedTab := 0;
    }

    /** What `saver(pageCount).save` stores: the selected index. */
    function Save(): int
      reads this
    {
      selectedTab
    }

    /** `saver(pageCount).restore(saved)`: a controller with that selection. */
    static method Restore(pageCount: int, saved: int) returns (c: TabStateController)
      ensures fresh(c) && c.Valid()
      ensures c.pageCount == pageCount && c.selectedTab == ClampTabIndex(saved, pageCount)
    {
      c := new TabStateController(pageCount);
      c.selectedTab := ClampTabIndex(saved, pageCount);
    }
  }

  /** Saving a valid controller and restoring it with the same page count gives back its selection. */
  method SaveRestoreRoundTrip(c: TabStateController) returns (restored: TabStateController)
    requires c.Valid()
    ensures fresh(restored) && restored.pageCount == c.pageCount
    ensures restored.selectedTab == c.selectedTab
  {
    restored := TabStateController.Restore(c.pageCount, c.Save());
  }
}
