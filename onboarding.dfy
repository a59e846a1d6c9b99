/** The three-page onboarding pager and the navigation from it to the home screen. */
module Onboarding {
  import opened KotlinText
  import opened NavStack

  datatype OnboardingPage = OnboardingPage(title: string, description: string)

  const Pages: seq<OnboardingPage> := [
    OnboardingPage("Easy Time Management",
      "With management based on priority and daily tasks, it will give you convenience in managing and determining the tasks that must be done first."),
    OnboardingPage("Increase Work Effectiveness",
      "Time management and the determination of more important tasks will give your job statistics better and always improve."),
    OnboardingPage("Reminder Notification",
      "This app also provides reminders for you so you don't forget your tasks and complete them on time.")
  ]

  const LastIndex: nat := |Pages| - 1

  const OnboardingRoute: string := "onboarding"
  const HomeRoute: string := "home"

  // ---------------------------------------------------------------- indicator

  datatype IndicatorItem = Dot(highlighted: bool) | Gap

  /** The indicator from dot i on: each dot highlighted iff it is the shown page, with a
      gap after every dot but the last. */
  function IndicatorFrom(n: nat, page: int, i: nat): seq<IndicatorItem>
    decreases n - i
  {
    if i >= n then []
    else [Dot(i == page)] + (if i < n - 1 then [Gap] else []) + IndicatorFrom(n, page, i + 1)
  }

  function Indicator(n: nat, page: int): seq<IndicatorItem> {
    IndicatorFrom(n, page, 0)
  }

  function Highlighted(s: seq<IndicatorItem>): nat {
    if s == [] then 0 else (if s[0] == Dot(true) then 1 else 0) + Highlighted(s[1..])
  }

  function Gaps(s: seq<IndicatorItem>): nat {
    if s == [] then 0 else (if s[0] == Gap then 1 else 0) + Gaps(s[1..])
  }

  function Dots(s: seq<IndicatorItem>): nat {
    if s == [] then 0 else (if s[0].Dot? then 1 else 0) + Dots(s[1..])
  }

  lemma {:induction false} CountsAppend(a: seq<IndicatorItem>, b: seq<IndicatorItem>)
    ensures Highlighted(a + b) == Highlighted(a) + Highlighted(b)
    ensures Gaps(a + b) == Gaps(a) + Gaps(b)
    ensures Dots(a + b) == Dots(a) + Dots(b)
  {
    if a != [] {
      assert (a + b)[1..] == a[1..] + b;
      CountsAppend(a[1..], b);
    } else {
      assert a + b == b;
    }
  }

  lemma {:induction false} IndicatorFromCounts(n: nat, page: int, i: nat)
    requires i <= n
    ensures Dots(IndicatorFrom(n, page, i)) == n - i
    ensures Highlighted(IndicatorFrom(n, page, i)) == if i <= page < n then 1 else 0
    ensures Gaps(IndicatorFrom(n, page, i)) == if i < n then n - 1 - i else 0
    decreases n - i
  {
    if i < n {
      var head := [Dot(i == page)] + (if i < n - 1 then [Gap] else []);
      IndicatorFromCounts(n, page, i + 1);
      CountsAppend(head, IndicatorFrom(n, page, i + 1));
      CountsAppend([Dot(i == page)], if i < n - 1 then [Gap] else []);
      assert IndicatorFrom(n, page, i) == head + IndicatorFrom(n, page, i + 1);
    }
  }

  /** One dot per page, exactly the current page's dot highlighted, and one gap between
      each pair of neighbouring dots. */
  lemma IndicatorShape(n: nat, page: int)
    requires 0 <= page < n
    ensures Dots(Indicator(n, page)) == n
    ensures Highlighted(Indicator(n, page)) == 1
    ensures Gaps(Indicator(n, page)) == n - 1
  {
    IndicatorFromCounts(n, page, 0);
  }

  // ---------------------------------------------------------------- buttons

  /** The back arrow is there only after the first page. */
  predicate ShowsBack(page: int) { page > 0 }

  /** The primary button's text. */
  function PrimaryLabel(page: int): (r: string)
    ensures r == "Get Started" <==> page == LastIndex
    ensures r == "Next" <==> page != LastIndex
  {
    if page == LastIndex then "Get Started" else "Next"
  }

  /** The pager with the navigation back stack it lives on. */
  class OnboardingFlow {
    var page: int
    var backStack: seq<string>

    predicate Valid()
      reads this
    {
      0 <= page <= LastIndex
    }

    constructor ()
      ensures Valid() && page == 0 && backStack == [OnboardingRoute]
    {
      page := 0;
      backStack := [OnboardingRoute];
    }

    /** Skip: straight to the last page. */
    method Skip()
      requires Valid()
      modifies this`page
      ensures Valid() && page == LastIndex
    {
      page := LastIndex;
    }

    /** The back arrow, which exists only when ShowsBack(page). */
    method Back()
      requires Valid() && ShowsBack(page)
      modifies this`page
      ensures Valid() && page == old(page) - 1
    {
      page := page - 1;
    }

    /** Next / Get Started: scrolls one page forward, or on the last page leaves for home,
        dropping the onboarding entry from the back stack. */
    method Primary()
      requires Valid()
      modifies this
      ensures Valid()
      ensures old(page) != LastIndex ==> page == old(page) + 1 && backStack == old(backStack)
      ensures old(page) == LastIndex ==>
        page == old(page) && backStack == Navigate(old(backStack), HomeRoute, Some(PopUpTo(OnboardingRoute, true)))
      ensures old(page) == LastIndex && Occurrences(old(backStack), OnboardingRoute) == 1 ==>
        backStack[|backStack| - 1] == HomeRoute && OnboardingRoute !in backStack
    {
      if page == LastIndex {
        if Occurrences(backStack, OnboardingRoute) == 1 {
          NavigatePopsInclusive(backStack, HomeRoute, OnboardingRoute);
        }
        backStack := Navigate(backStack, HomeRoute, Some(PopUpTo(OnboardingRoute, true)));
      } else {
        page := page + 1;
      }
    }
  }
}
