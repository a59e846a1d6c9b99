/** The part of NavController.navigate the screens rely on: a back stack of route names,
    an optional popUpTo(route) { inclusive = … } before the new destination is pushed. */
module NavStack {
  import opened KotlinText

  datatype PopUpTo = PopUpTo(route: string, inclusive: bool)

  /** The position of the topmost entry equal to route, or -1. */
  function LastIndexOf(stack: seq<string>, route: string): (i: int)
    ensures -1 <= i < |stack|
    ensures i >= 0 ==> stack[i] == route
    ensures forall j :: i < j < |stack| ==> stack[j] != route
  {
    if stack == [] then -1
    else if stack[|stack| - 1] == route then |stack| - 1
    else LastIndexOf(stack[..|stack| - 1], route)
  }

  /** navigate(dest) with an optional popUpTo: the entries above the topmost `route`
      are popped (and that entry too when inclusive); a route not on the stack pops
      nothing. Then dest is pushed. */
  function Navigate(stack: seq<string>, dest: string, pop: Option<PopUpTo>): (r: seq<string>)
    ensures |r| >= 1 && r[|r| - 1] == dest && r[..|r| - 1] <= stack
  {
    if pop.None? then stack + [dest]
    else
      var i := LastIndexOf(stack, pop.value.route);
      if i < 0 then stack + [dest]
      else if pop.value.inclusive then stack[..i] + [dest]
      else stack[..i + 1] + [dest]
  }

  /** How often route occurs on the stack. */
  function Occurrences(stack: seq<string>, route: string): nat {
    if stack == [] then 0
    else Occurrences(stack[..|stack| - 1], route) + (if stack[|stack| - 1] == route then 1 else 0)
  }

  lemma {:induction false} OccurrencesPrefix(stack: seq<string>, route: string, k: nat)
    requires k <= |stack|
    requires forall j :: k <= j < |stack| ==> stack[j] != route
    ensures Occurrences(stack[..k], route) == Occurrences(stack, route)
    decreases |stack| - k
  {
    if k < |stack| {
      var shorter := stack[..|stack| - 1];
      OccurrencesPrefix(shorter, route, k);
      assert shorter[..k] == stack[..k];
    } else {
      assert stack[..k] == stack;
    }
  }

  lemma {:induction false} OccurrencesZero(stack: seq<string>, route: string)
    requires Occurrences(stack, route) == 0
    ensures route !in stack
  {
    if stack != [] {
      var shorter := stack[..|stack| - 1];
      OccurrencesZero(shorter, route);
      assert stack == shorter + [stack[|stack| - 1]];
    }
  }

  /** Navigating with popUpTo(route) { inclusive = true } when route is on the stack once
      leaves route nowhere on the stack (unless it is the destination itself), keeps what
      lay below it and puts dest on top. */
  lemma NavigatePopsInclusive(stack: seq<string>, dest: string, route: string)
    requires Occurrences(stack, route) == 1
    ensures var r := Navigate(stack, dest, Some(PopUpTo(route, true)));
      var i := LastIndexOf(stack, route);
      0 <= i && r == stack[..i] + [dest] && route !in stack[..i] && (route in r <==> route == dest)
  {
    var i := LastIndexOf(stack, route);
    if i < 0 {
      OccurrencesPrefix(stack, route, 0);
      assert false;
    }
    OccurrencesPrefix(stack, route, i + 1);
    var below := stack[..i];
    assert stack[..i + 1][..i] == below;
    OccurrencesZero(below, route);
  }
}
