/**
 * The first prototype (`openandroidinstaller_old.py`): six pages with
 * routes "0" to "5", Back and Next buttons that move between them by
 * route, and a device check that writes what it found on the current page.
 */
module OldMain {
  import opened Wrappers
  import opened PyStr

  /** The six pages, in the order of the page list. */
  datatype Page = WelcomePage | BootloaderPage | ImageSelectPage | RecoveryPage | InstallPage | SuccessPage

  const Pages: seq<Page> := [WelcomePage, BootloaderPage, ImageSelectPage, RecoveryPage, InstallPage, SuccessPage]

  /** A page's route is its position in the list, written in decimal. */
  function Route(i: nat): string
  {
    NatToString(i)
  }

  /** Every page but the last has a Next button; the welcome page has no Back button. */
  predicate HasNext(p: Page) { p != SuccessPage }
  predicate HasBack(p: Page) { p != WelcomePage }

  /** The page `go_next` aims for: one further, clamped to 6 (one past the last page). */
  function NextIndex(i: int): (r: int)
    ensures r <= 6 && r <= i + 1
    ensures r == i + 1 || r == 6
  {
    if i + 1 > 6 then 6 else i + 1
  }

  /** The page `go_back` aims for: one back, clamped to 0. */
  function BackIndex(i: int): (r: int)
    ensures r >= 0 && r >= i - 1
    ensures r == i - 1 || r == 0
  {
    if i - 1 < 0 then 0 else i - 1
  }

  /** `int(route)` of a page's route gives the page's position back. */
  lemma RouteParses(i: nat)
    ensures var r := Route(i); r != [] && (forall k :: 0 <= k < |r| ==> IsDigit(r[k])) && DigitsValue(r) == i
  {
    NatToStringRoundTrip(i);
  }

  /**
   * Next is safe only because of where its buttons are: from every page
   * with a Next button it reaches a page of the list, while from the last
   * page it would aim past the list.
   */
  lemma NextStaysInPages(i: nat)
    requires i < |Pages|
    ensures HasNext(Pages[i]) ==> 0 <= NextIndex(i) < |Pages|
    ensures !HasNext(Pages[i]) ==> NextIndex(i) == |Pages|
  {
  }

  /** Back always reaches a page of the list. */
  lemma BackStaysInPages(i: nat)
    requires i < |Pages|
    ensures 0 <= BackIndex(i) < |Pages|
    ensures HasBack(Pages[i]) ==> BackIndex(i) == i - 1
  {
  }

  /** What the device check adds to a page. */
  datatype Control = Label(text: string) | ConfirmRow(text: string)

  class App {
    /** `page.views`, as positions in the page list. */
    var shown: seq<nat>
    /** The controls each page has gained, by position. */
    var added: seq<seq<Control>>
    var blocked: bool

    ghost predicate Valid()
      reads this
    {
      |added| == |Pages| && forall k :: 0 <= k < |shown| ==> shown[k] < |Pages|
    }

    /** `main`: the welcome page is shown and nothing is blocked. */
    constructor()
      ensures Valid() && shown == [0] && added == [[], [], [], [], [], []] && !blocked
    {
      shown, added, blocked := [0], [[], [], [], [], [], []], false;
    }

    /**
     * `go_next`: the target is read from the shown page's route. The page
     * is cleared before the target is looked up, so aiming past the list
     * leaves nothing shown.
     */
    method GoNext() returns (raised: Option<string>)
      requires Valid()
      modifies this
      ensures Valid() && added == old(added) && blocked == old(blocked)
      ensures old(shown) == [] ==> raised == Some("IndexError") && shown == []
      ensures old(shown) != [] ==>
                var n := NextIndex(old(shown)[|old(shown)| - 1]);
                (n < |Pages| ==> raised.None? && shown == [n]) &&
                (n >= |Pages| ==> raised == Some("IndexError") && shown == [])
    {
      if shown == [] {
        return Some("IndexError");
      }
      var current := shown[|shown| - 1];
      RouteParses(current);
      var n := DigitsValue(Route(current)) + 1;
      if n > 6 {
        n := 6;
      }
      shown := [];
      if n >= |Pages| {
        return Some("IndexError");
      }
      shown := [n];
      raised := None;
    }

    /** `go_back`: the same, one page back and clamped at the first page. */
    method GoBack() returns (raised: Option<string>)
      requires Valid()
      modifies this
      ensures Valid() && added == old(added) && blocked == old(blocked)
      ensures old(shown) == [] ==> raised == Some("IndexError") && shown == []
      ensures old(shown) != [] ==> raised.None? && shown == [BackIndex(old(shown)[|old(shown)| - 1])]
    {
      if shown == [] {
        return Some("IndexError");
      }
      var current := shown[|shown| - 1];
      RouteParses(current);
      var n := DigitsValue(Route(current)) - 1;
      if n < 0 {
        n := 0;
      }
      shown := [n];
      raised := None;
    }

    /**
     * `check_devices`, with `output` what the shell pipeline prints (`None`
     * when it fails): the shown page gets the detected name and a confirm
     * row, or a message that no device was found.
     */
    method CheckDevices(output: Option<string>) returns (raised: Option<string>)
      requires Valid()
      modifies this
      ensures Valid() && shown == old(shown) && blocked == old(blocked)
      ensures old(shown) == [] ==> raised == Some("IndexError") && added == old(added)
      ensures old(shown) != [] ==>
                var p := shown[|shown| - 1];
                raised.None? &&
                added == old(added)[p := old(added)[p] + DeviceControls(output)]
    {
      if shown == [] {
        return Some("IndexError");
      }
      var p := shown[|shown| - 1];
      added := added[p := added[p] + DeviceControls(output)];
      raised := None;
    }

    /** `confirm` assigns a local `blocked`, so the app's own flag never changes. */
    method Confirm()
      ensures blocked == old(blocked)
    {
      var blocked := false;
    }
  }

  /** The controls the device check adds: the detected name with a confirm row, or a failure message. */
  function DeviceControls(output: Option<string>): seq<Control>
  {
    if output.Some? then [Label("Detected: " + output.value), ConfirmRow("Is this correct?")]
    else [Label("No device detected!")]
  }

  /**
   * Navigating only with the buttons a page has keeps exactly one page of
   * the list shown: the index moves by one within the list.
   */
  lemma ButtonsKeepOnePage(i: nat, next: bool)
    requires i < |Pages|
    requires next ==> HasNext(Pages[i])
    ensures var n := if next then NextIndex(i) else BackIndex(i);
            0 <= n < |Pages| && (n == i + 1 || n == i - 1 || n == i)
  {
  }
}
