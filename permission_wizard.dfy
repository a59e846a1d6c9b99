/** The three-page permission wizard: location, notifications, camera. The SDK level and
    the set of permissions already granted are inputs; finishing is counted. */
module PermissionWizard {
  import opened KotlinText

  const PageCount: nat := 3
  const LastPage: nat := PageCount - 1
  const NotificationsSdk: int := 33

  datatype Permission = AccessFineLocation | PostNotifications | Camera

  /** The permission page's main button asks for; none for notifications before SDK 33. */
  function PermissionFor(page: int, sdk: int): (r: Option<Permission>)
    ensures r == Some(AccessFineLocation) <==> page == 0
    ensures r == Some(PostNotifications) <==> page == 1 && sdk >= NotificationsSdk
    ensures r == Some(Camera) <==> page == 2
    ensures r == None <==> (page == 1 && sdk < NotificationsSdk) || page !in {0, 1, 2}
  {
    if page == 0 then Some(AccessFineLocation)
    else if page == 1 then (if sdk >= NotificationsSdk then Some(PostNotifications) else None)
    else if page == 2 then Some(Camera)
    else None
  }

  /** The pager accepts any target and settles on the nearest existing page. */
  function ScrollTarget(target: int): (p: int)
    ensures 0 <= p <= LastPage
    ensures 0 <= target <= LastPage ==> p == target
  {
    if target < 0 then 0 else if target > LastPage then LastPage else target
  }

  /** The main button's text. */
  function MainLabel(page: int): (r: string)
    ensures r == "Allow" <==> page == 0
    ensures r == "Turn on" <==> page != 0
  {
    if page == 0 then "Allow" else "Turn on"
  }

  /** The three dots: the current page's dot is the highlighted one. */
  function PageDots(page: int): (r: seq<bool>)
    ensures |r| == PageCount
    ensures forall i :: 0 <= i < PageCount ==> (r[i] <==> i == page)
  {
    seq(PageCount, i => i == page)
  }

  /** Login and "Continue without account" are shown on the last page only. */
  predicate ShowsAccountButtons(page: int) { page == LastPage }

  class Wizard {
    var page: int
    var finishCalls: nat

    predicate Valid()
      reads this
    {
      0 <= page <= LastPage
    }

    constructor ()
      ensures Valid() && page == 0 && finishCalls == 0
    {
      page := 0;
      finishCalls := 0;
    }

    /** The main button: with nothing to ask (no permission for this page, or already
        granted) it scrolls on, otherwise it launches exactly one request and waits. */
    method MainClick(sdk: int, granted: set<Permission>) returns (request: Option<Permission>)
      requires Valid()
      modifies this`page
      ensures Valid()
      ensures var p := PermissionFor(old(page), sdk);
        if p.None? || p.value in granted
        then request == None && page == ScrollTarget(old(page) + 1)
        else request == p && page == old(page)
      ensures old(page) == LastPage && request == None ==> page == LastPage
    {
      var permission := PermissionFor(page, sdk);
      if permission.None? || permission.value in granted {
        page := ScrollTarget(page + 1);
        request := None;
      } else {
        request := permission;
      }
    }

    /** The request's answer, granted or not: on to the next page, or finish on the last. */
    method OnPermissionResult()
      requires Valid()
      modifies this
      ensures Valid()
      ensures old(page) < LastPage ==> page == old(page) + 1 && finishCalls == old(finishCalls)
      ensures old(page) == LastPage ==> page == old(page) && finishCalls == old(finishCalls) + 1
    {
      if page < LastPage {
        page := ScrollTarget(page + 1);
      } else {
        finishCalls := finishCalls + 1;
      }
    }

    /** "Skip for now": one page on, never finishing. */
    method SkipForNow()
      requires Valid()
      modifies this`page
      ensures Valid() && page == ScrollTarget(old(page) + 1)
    {
      page := ScrollTarget(page + 1);
    }

    /** The bottom "Skip": finishes at once from any page. */
    method Skip()
      modifies this`finishCalls
      ensures finishCalls == old(finishCalls) + 1
    {
      finishCalls := finishCalls + 1;
    }

    /** Login or "Continue without account", both shown on the last page only. */
    method AccountButton()
      requires Valid() && ShowsAccountButtons(page)
      modifies this`finishCalls
      ensures finishCalls == old(finishCalls) + 1
    {
      finishCalls := finishCalls + 1;
    }
  }
}
