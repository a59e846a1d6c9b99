/** The Jetpack Compose demo: the list of demos with their routes, the counter screen and
    the dashboard screen. */
module ComposeDemo {
  import opened KotlinText

  /** The destinations registered in the navigation graph. */
  const GraphRoutes: seq<string> := ["start", "list", "counter", "settings", "profile", "dashboard", "progress"]

  const Demos: seq<string> := ["Counter App", "Settings Screen", "Profile Page", "Business Dashboard", "Progress Demo"]
  const Routes: seq<string> := ["counter", "settings", "profile", "dashboard", "progress"]

  /** The route card i of the demo list navigates to. */
  function RouteFor(index: nat): (r: string)
    requires index < |Demos|
    ensures r in GraphRoutes
    ensures r == Routes[index]
    ensures forall j :: 0 <= j < |Routes| && Routes[j] == r ==> j == index
  {
    Routes[index]
  }

  // ---------------------------------------------------------------- counter

  class Counter {
    var counter: int

    constructor ()
      ensures counter == 0
    {
      counter := 0;
    }

    /** "+": Kotlin's `counter++` on an Int, wrapping past the largest Int. */
    method Increment()
      requires IsInt(counter)
      modifies this
      ensures IsInt(counter)
      ensures old(counter) < MaxInt ==> counter == old(counter) + 1
      ensures old(counter) == MaxInt ==> counter == MinInt
    {
      counter := Wrap(counter + 1);
    }

    /** "-": only a positive counter goes down, so it never goes below 0 from 0 or above. */
    method Decrement()
      requires IsInt(counter)
      modifies this
      ensures IsInt(counter)
      ensures old(counter) > 0 ==> counter == old(counter) - 1
      ensures old(counter) <= 0 ==> counter == old(counter)
      ensures old(counter) >= 0 ==> counter >= 0
    {
      if counter > 0 {
        counter := counter - 1;
      }
    }
  }

  // ---------------------------------------------------------------- dashboard

  datatype DashboardItem = DashboardItem(title: string, value: string, color: int, description: string)

  const DashboardItems: seq<DashboardItem> := [
    DashboardItem("Revenue", "$12.5K", 0xFF81_C784, "Revenue increased 12% compared to last month."),
    DashboardItem("Expenses", "$5.2K", 0xFF64_B5F6, "Expenses are stable compared to previous months."),
    DashboardItem("Profit", "$7.3K", 0xFFFF_F176, "Profit margins remain consistent across departments."),
    DashboardItem("Customers", "1.2K", 0xFFE5_7373, "Customer base grew 8% this quarter.")
  ]

  /** The cards of the dashboard, top row then bottom row. */
  function DashboardCards(): (r: seq<DashboardItem>)
    ensures r == DashboardItems
  {
    TakeThenTakeLast(DashboardItems, 2);
    Take(DashboardItems, 2) + TakeLast(DashboardItems, 2)
  }

  /** How many cards show this item. */
  function CardsShowing(cards: seq<DashboardItem>, item: DashboardItem): nat {
    |set k | 0 <= k < |cards| && cards[k] == item|
  }

  /** Every dashboard item is on exactly one card, and nothing else is. */
  lemma CardsShowEachItemOnce(item: DashboardItem)
    ensures CardsShowing(DashboardCards(), item) == if item in DashboardItems then 1 else 0
  {
    var cards := DashboardCards();
    var ks := set k | 0 <= k < |cards| && cards[k] == item;
    if item in DashboardItems {
      var k0 :| 0 <= k0 < |cards| && cards[k0] == item;
      assert ks == {k0};
    } else {
      assert ks == {};
    }
  }

  /** The dashboard's details pane shows the selected item, the first one at the start. */
  class Dashboard {
    var selectedItem: DashboardItem

    constructor ()
      ensures selectedItem == DashboardItems[0]
    {
      selectedItem := DashboardItems[0];
    }

    /** A click on card k selects that card's item. */
    method SelectCard(k: nat)
      requires k < |DashboardCards()|
      modifies this
      ensures selectedItem == DashboardCards()[k]
    {
      selectedItem := DashboardCards()[k];
    }
  }
}
