/**
 * What the views do with an operation's generator: iterate it to the end
 * and keep the last element, whose truth value is the verdict.
 */
module Streams {
  import opened Wrappers
  import opened Tooling

  /** `bool(item)`: a verdict is itself, a text line is true unless empty. */
  predicate Truthy(it: Item)
  {
    match it
    case Done(b) => b
    case Line(s) => s != ""
  }

  /**
   * The value of the loop variable after `for line in items`, when it held
   * `prev` before the loop (`None`: not bound yet).
   */
  function LastOf(items: seq<Item>, prev: Option<Item>): (r: Option<Item>)
    ensures items != [] ==> r == Some(items[|items| - 1])
    ensures items == [] ==> r == prev
  {
    if items == [] then prev else Some(items[|items| - 1])
  }

  /** `for line in items: ...`: the loop leaves the last element in `line`. */
  method Drain(items: seq<Item>, prev: Option<Item>) returns (line: Option<Item>)
    ensures line == LastOf(items, prev)
  {
    line := prev;
    for i := 0 to |items|
      invariant line == LastOf(items[..i], prev)
    {
      line := Some(items[i]);
    }
    assert items[..|items|] == items;
  }

  /** Draining two generators in turn leaves what draining their concatenation leaves. */
  lemma LastOfConcat(a: seq<Item>, b: seq<Item>, prev: Option<Item>)
    ensures LastOf(a + b, prev) == LastOf(b, LastOf(a, prev))
  {
    if b != [] {
      assert (a + b)[|a + b| - 1] == b[|b| - 1];
    }
  }

  /** The stream of a known tool's command is never empty and its verdict is the exit status. */
  lemma RunVerdict(env: Env, hist: seq<Invocation>, c: Call)
    requires Known(c)
    ensures var l := LastOf(RunCall(env, hist, c).items, None);
            l.Some? && (Truthy(l.value) <==> env.device(hist, InvocationOf(env, c)).exitCode == 0)
  {
    RunShape(env, hist, c);
  }
}
