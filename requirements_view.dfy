/**
 * The requirements view: one checkbox per requirement of the device
 * config, plus the battery and screen-lock checks every device has;
 * continuing is allowed once every box is ticked.
 */
module RequirementsViews {
  import opened Wrappers
  import opened Document
  import opened Session

  /** A requirement with its checkbox; the versions are the config's values. */
  datatype Requirement = Android(version: Value) | Firmware(version: Value) | Battery | Lock

  /** Every checkbox is ticked. */
  predicate AllTicked(ticked: seq<bool>)
  {
    forall i :: 0 <= i < |ticked| ==> ticked[i]
  }

  /** The optional checks a requirements mapping asks for: android, then firmware, each when its entry is truthy. */
  function ConfigChecks(m: map<string, Value>): (r: seq<Requirement>)
    ensures |r| <= 2
    ensures Android(Get(m, "android", Null)) in r <==> Truthy(Get(m, "android", Null))
    ensures Firmware(Get(m, "firmware", Null)) in r <==> Truthy(Get(m, "firmware", Null))
    ensures forall i :: 0 <= i < |r| ==> r[i].Android? || r[i].Firmware?
  {
    var android := Get(m, "android", Null);
    var firmware := Get(m, "firmware", Null);
    (if Truthy(android) then [Android(android)] else []) + (if Truthy(firmware) then [Firmware(firmware)] else [])
  }

  /**
   * The checkboxes `build` shows for a config's `requirements` entry, or
   * `None` where a truthy entry is not a mapping and `get` raises.
   */
  function Checks(req: Value): (r: Option<seq<Requirement>>)
    ensures r.None? <==> Truthy(req) && !req.Dict?
    ensures r.Some? ==> 2 <= |r.value| <= 4 && r.value[|r.value| - 2..] == [Battery, Lock]
    ensures !Truthy(req) ==> r == Some([Battery, Lock])
  {
    if !Truthy(req) then Some([Battery, Lock])
    else if !req.Dict? then None
    else Some(ConfigChecks(req.entries) + [Battery, Lock])
  }

  class RequirementsView {
    const state: AppState
    var checkboxes: seq<Requirement>
    var ticked: seq<bool>
    var continueDisabled: bool

    constructor(state: AppState)
      ensures this.state == state
    {
      this.state := state;
    }

    /**
     * `build`: continuing starts disabled; the checkboxes are those of the
     * config's requirements, none ticked. A missing config, or a truthy
     * `requirements` entry that is not a mapping, raises.
     */
    method Build() returns (raised: Option<string>)
      modifies this
      ensures continueDisabled
      ensures state.config.None? ==> raised == Some("AttributeError")
      ensures state.config.Some? ==>
                var checks := Checks(state.config.value.requirements);
                (checks.None? ==> raised == Some("AttributeError")) &&
                (checks.Some? ==> raised.None? && checkboxes == checks.value &&
                                  |ticked| == |checkboxes| && !AllTicked(ticked) &&
                                  forall i :: 0 <= i < |ticked| ==> !ticked[i])
    {
      continueDisabled := true;
      checkboxes, ticked := [], [];
      if state.config.None? {
        return Some("AttributeError");
      }
      var req := state.config.value.requirements;
      if Truthy(req) {
        if !req.Dict? {
          return Some("AttributeError");
        }
        checkboxes := ConfigChecks(req.entries);
      }
      checkboxes := checkboxes + [Battery, Lock];
      ticked := seq(|checkboxes|, _ => false);
      assert !ticked[0];
      raised := None;
    }

    /** `enable_continue_button`: the first unticked box keeps continuing disabled; all ticked enables it. */
    method EnableContinueButton()
      modifies this
      ensures continueDisabled <==> !AllTicked(ticked)
      ensures checkboxes == old(checkboxes) && ticked == old(ticked)
    {
      for i := 0 to |ticked|
        invariant AllTicked(ticked[..i])
      {
        if !ticked[i] {
          continueDisabled := true;
          return;
        }
      }
      assert ticked[..|ticked|] == ticked;
      continueDisabled := false;
    }

    /** Changing one checkbox, which runs `enable_continue_button`. */
    method Tick(i: nat, value: bool)
      requires i < |ticked|
      modifies this
      ensures ticked == old(ticked)[i := value] && checkboxes == old(checkboxes)
      ensures continueDisabled <==> exists j :: 0 <= j < |ticked| && !ticked[j]
    {
      ticked := ticked[i := value];
      EnableContinueButton();
    }
  }

  /** Ticking every box, in any order, allows continuing; unticking any one forbids it again. */
  lemma {:induction false} TickAllEnables(ticked: seq<bool>, order: seq<nat>)
    requires forall k :: 0 <= k < |order| ==> order[k] < |ticked|
    requires forall i :: 0 <= i < |ticked| ==> i in order
    ensures AllTicked(TickEach(ticked, order))
    ensures |TickEach(ticked, order)| == |ticked|
    ensures forall i :: 0 <= i < |ticked| ==> !AllTicked(Untick(TickEach(ticked, order), i))
  {
    TickInvariant(ticked, order);
    var all := TickEach(ticked, order);
    forall i | 0 <= i < |ticked|
      ensures !AllTicked(Untick(all, i))
    {
      assert !Untick(all, i)[i];
    }
  }

  /** The boxes with box `i` unticked. */
  function Untick(ticked: seq<bool>, i: nat): seq<bool>
    requires i < |ticked|
  {
    ticked[i := false]
  }

  /** Ticking the boxes in `order`, one by one. */
  function TickEach(ticked: seq<bool>, order: seq<nat>): (r: seq<bool>)
    requires forall k :: 0 <= k < |order| ==> order[k] < |ticked|
    ensures |r| == |ticked|
    decreases |order|
  {
    if order == [] then ticked else TickEach(ticked[order[0] := true], order[1..])
  }

  /** Boxes already ticked stay ticked, and the ones in `order` get ticked. */
  lemma {:induction false} TickInvariant(ticked: seq<bool>, order: seq<nat>)
    requires forall k :: 0 <= k < |order| ==> order[k] < |ticked|
    requires forall i :: 0 <= i < |ticked| && i !in order ==> ticked[i]
    ensures AllTicked(TickEach(ticked, order))
    decreases |order|
  {
    if order != [] {
      var t1 := ticked[order[0] := true];
      var rest := order[1..];
      forall i | 0 <= i < |t1| && i !in rest
        ensures t1[i]
      {
        if i != order[0] {
          assert order == [order[0]] + rest;
        }
      }
      TickInvariant(t1, rest);
    }
  }
}
