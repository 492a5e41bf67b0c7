/** The host/server action line of a transmit processor: which steps one `go` call runs. */
module ActionLines {
  import opened Types

  datatype Position = Host | Server

  function Opposite(p: Position): Position {
    if p.Host? then Server else Host
  }

  /** A line is the list of the positions its steps name. */
  type Line = seq<Position>

  /** What the callback of one step answers, and the content it leaves behind. */
  datatype StepOut = StepOut(result: Result, units: Units)

  /** The answers the callbacks would give, by step index. */
  type Steps = nat -> StepOut

  /** Record of one executed step. */
  datatype Ran = Ran(index: nat, side: Position, before: Units, result: Result, after: Units)

  datatype GoResult = GoResult(cursor: nat, result: Result, units: Units, ran: seq<Ran>)

  /** The first step at or after `c` that names `side`, or the end of the line. */
  function SkipTo(line: Line, c: nat, side: Position): (s: nat)
    requires c <= |line|
    ensures c <= s <= |line|
    ensures forall i :: c <= i < s ==> line[i] != side
    ensures s < |line| ==> line[s] == side
    decreases |line| - c
  {
    if c == |line| || line[c] == side then c else SkipTo(line, c + 1, side)
  }

  /** Runs consecutive steps of `side` from `c`; the last step of a line always reports success. */
  function RunFrom(line: Line, c: nat, side: Position, out: Steps, units: Units): (g: GoResult)
    requires c < |line| && line[c] == side
    ensures c < g.cursor <= |line|
    decreases |line| - c
  {
    var o := out(c);
    var first := [Ran(c, side, units, o.result, o.units)];
    if c + 1 == |line| then
      GoResult(c + 1, Success, o.units, first)
    else if line[c + 1] != side || !o.result.Success? then
      GoResult(c + 1, o.result, o.units, first)
    else
      var g := RunFrom(line, c + 1, side, out, o.units);
      g.(ran := first + g.ran)
  }

  function Go(line: Line, c: nat, side: Position, out: Steps, units: Units): (g: GoResult)
    requires c <= |line|
    ensures c <= g.cursor <= |line|
  {
    var s := SkipTo(line, c, side);
    if s == |line| then GoResult(s, Success, units, []) else RunFrom(line, s, side, out, units)
  }

  /** `trace` runs the steps from..to of the line in order, each by the side it names, each starting
      from the content the previous one left, none after a step that did not succeed. */
  ghost predicate Segment(line: Line, trace: seq<Ran>, from: nat, start: Units) {
    && from + |trace| <= |line|
    && (forall i :: 0 <= i < |trace| ==> trace[i].index == from + i && trace[i].side == line[from + i])
    && (|trace| > 0 ==> trace[0].before == start)
    && (forall i :: 1 <= i < |trace| ==> trace[i].before == trace[i - 1].after)
    && (forall i :: 0 <= i < |trace| - 1 ==> trace[i].result.Success?)
  }

  /** `whole` is what the steps recorded in `done` followed by the run `rest` amount to. */
  ghost predicate Continues(whole: GoResult, done: seq<Ran>, rest: GoResult) {
    whole == GoResult(rest.cursor, rest.result, rest.units, done + rest.ran)
  }

  function Final(trace: seq<Ran>, start: Units): Units {
    if trace == [] then start else trace[|trace| - 1].after
  }

  ghost predicate AllOf(line: Line, from: nat, to: nat, side: Position) {
    from <= to <= |line| && forall i :: from <= i < to ==> line[i] == side
  }

  /** What one uninterrupted run does to the line. */
  lemma {:induction false} RunIsSegment(line: Line, c: nat, side: Position, out: Steps, units: Units)
    requires c < |line| && line[c] == side
    ensures var g := RunFrom(line, c, side, out, units);
      && Segment(line, g.ran, c, units)
      && g.cursor == c + |g.ran|
      && |g.ran| > 0
      && AllOf(line, c, g.cursor, side)
      && g.units == g.ran[|g.ran| - 1].after
      && (g.cursor == |line| ==> g.result.Success?)
      && (g.cursor < |line| ==> g.result == g.ran[|g.ran| - 1].result)
      && (g.cursor < |line| && g.result.Success? ==> line[g.cursor] != side)
    decreases |line| - c
  {
    var o := out(c);
    if c + 1 < |line| && line[c + 1] == side && o.result.Success? {
      RunIsSegment(line, c + 1, side, out, o.units);
      var g := RunFrom(line, c + 1, side, out, o.units);
      var first := Ran(c, side, units, o.result, o.units);
      var all := [first] + g.ran;
      forall i | 0 <= i < |all|
        ensures all[i].index == c + i && all[i].side == line[c + i]
        ensures i > 0 ==> all[i].before == all[i - 1].after
        ensures i < |all| - 1 ==> all[i].result.Success?
      {
        if i > 0 {
          assert all[i] == g.ran[i - 1];
          assert i > 1 ==> all[i - 1] == g.ran[i - 2];
        }
      }
    }
  }

  /** Two consecutive segments join into one when the first ended in success. */
  lemma Join(line: Line, a: seq<Ran>, b: seq<Ran>, start: Units)
    requires Segment(line, a, 0, start)
    requires Segment(line, b, |a|, Final(a, start))
    requires a == [] || a[|a| - 1].result.Success? || b == []
    ensures Segment(line, a + b, 0, start)
    ensures Final(a + b, start) == Final(b, Final(a, start))
  {
    var all := a + b;
    assert forall i :: |a| <= i < |all| ==> all[i] == b[i - |a|];
    forall i | 1 <= i < |all|
      ensures all[i].before == all[i - 1].after
    {
      if i > |a| {
        assert all[i - 1] == b[i - 1 - |a|];
      }
    }
  }

  /** One more callback of a run: the run is over after it, or goes on behind it. */
  lemma RunStep(whole: GoResult, done: seq<Ran>, line: Line, c: nat, side: Position, out: Steps, units: Units)
    requires c < |line| && line[c] == side && Continues(whole, done, RunFrom(line, c, side, out, units))
    ensures var o := out(c);
      var ran := done + [Ran(c, side, units, o.result, o.units)];
      if c + 1 == |line| then whole == GoResult(c + 1, Success, o.units, ran)
      else if line[c + 1] != side || !o.result.Success? then whole == GoResult(c + 1, o.result, o.units, ran)
      else Continues(whole, ran, RunFrom(line, c + 1, side, out, o.units))
  {
    var o := out(c);
    if c + 1 < |line| && line[c + 1] == side && o.result.Success? {
      Assoc(done, [Ran(c, side, units, o.result, o.units)], RunFrom(line, c + 1, side, out, o.units).ran);
    }
  }

  lemma RunStart(line: Line, c: nat, side: Position, out: Steps, units: Units)
    requires c < |line| && line[c] == side
    ensures Continues(RunFrom(line, c, side, out, units), [], RunFrom(line, c, side, out, units))
  {
    hide RunFrom;
  }

  /** `iStep`/`current`/`start` of the C++ line; `current == |steps|` stands for the null pointer. */
  class ActionLine {
    var steps: Line
    var current: nat
    var iStep: nat
    var iLastResult: Result
    ghost var owner: object?  // the processor this line drives

    ghost predicate Valid()
      reads this
    {
      current <= |steps|
    }

    constructor ()
      ensures Valid() && steps == [] && current == 0 && iStep == 0 && owner == null
    {
      steps := [];
      current := 0;
      iStep := 0;
      iLastResult := Fail;
      owner := null;
    }

    method Add(p: Position)
      requires Valid()
      modifies this`steps, this`current
      ensures Valid() && steps == old(steps) + [p]
      ensures current == if old(current) == |old(steps)| then 0 else old(current)
    {
      if current == |steps| {
        current := 0;
      }
      steps := steps + [p];
    }

    predicate IsOver()
      reads this
    {
      current == |steps|
    }

    method Restart()
      modifies this`current, this`iStep
      ensures Valid() && current == 0 && iStep == 0
    {
      current := 0;
      iStep := 0;
    }

    /** Runs the callbacks of `cp`; `units` is the content before the call. */
    method GoLine(cp: Position, out: Steps, units: Units) returns (r: Result, after: Units, ghost ran: seq<Ran>)
      requires Valid()
      modifies this`current, this`iStep, this`iLastResult
      ensures Valid()
      ensures GoResult(current, r, after, ran) == Go(steps, old(current), cp, out, units)
      ensures iStep - current == old(iStep - current)
    {
      after, ran := units, [];
      while current < |steps| && steps[current] != cp
        invariant current <= |steps|
        invariant SkipTo(steps, current, cp) == SkipTo(steps, old(current), cp)
        invariant iStep - current == old(iStep - current)
      {
        current := current + 1;
        iStep := iStep + 1;
      }
      if current == |steps| {
        return Success, after, ran;
      }
      ghost var whole := RunFrom(steps, current, cp, out, units);
      RunStart(steps, current, cp, out, units);
      hide RunFrom, Continues, SkipTo;
      iLastResult := Success;
      var over := false;
      while iLastResult.Success? && !over
        invariant current <= |steps| && iStep - current == old(iStep - current)
        invariant !over && iLastResult.Success? ==>
          current < |steps| && steps[current] == cp && Continues(whole, ran, RunFrom(steps, current, cp, out, after))
        invariant over || !iLastResult.Success? ==>
          whole == GoResult(current, if current == |steps| then Success else iLastResult, after, ran)
        decreases iLastResult.Success?, !over, |steps| - current
      {
        after, ran := CallStep(whole, ran, cp, out, after);
        over := current == |steps| || steps[current] != cp;
      }
      r := if current == |steps| then Success else iLastResult;
    }

    /** One callback; the cursor moves on whatever it answers. */
    method CallStep(ghost whole: GoResult, ghost done: seq<Ran>, cp: Position, out: Steps, units: Units)
      returns (after: Units, ghost ran: seq<Ran>)
      requires current < |steps| && steps[current] == cp && Continues(whole, done, RunFrom(steps, current, cp, out, units))
      modifies this`current, this`iStep, this`iLastResult
      ensures current == old(current) + 1 <= |steps| && iStep - current == old(iStep - current)
      ensures if current < |steps| && steps[current] == cp && iLastResult.Success?
              then Continues(whole, ran, RunFrom(steps, current, cp, out, after))
              else whole == GoResult(current, if current == |steps| then Success else iLastResult, after, ran)
    {
      RunStep(whole, done, steps, current, cp, out, units);
      hide RunFrom, Continues;
      var o := out(current);
      iLastResult := o.result;
      ran := done + [Ran(current, cp, units, o.result, o.units)];
      after := o.units;
      iStep := iStep + 1;
      current := current + 1;
    }
  }

  /** `line() << a << b << ...`: the cursor of a line that has just been built is at its start. */
  method MakeLine(l: Line) returns (a: ActionLine)
    ensures fresh(a) && a.Valid() && a.steps == l && a.current == 0 && a.iStep == 0 && a.owner == null
  {
    a := new ActionLine();
    for i := 0 to |l|
      invariant fresh(a) && a.Valid() && a.steps == l[..i] && a.current == 0 && a.iStep == 0 && a.owner == null
    {
      a.Add(l[i]);
    }
  }
}
