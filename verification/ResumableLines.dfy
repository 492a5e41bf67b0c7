/** The resumable action line: a finished step is never run again, a REPEAT is retried on the next call,
    and lines whose steps are lines of their own behave like one flat line. */
module ResumableLines {
  import opened Types

  /** What the attempt made at each moment answers. */
  type Answers = nat -> Result

  /** One attempt: the flat position of the step and its answer. */
  datatype Attempt = Attempt(at: nat, result: Result)

  datatype Went = Went(current: nat, time: nat, result: Result, log: seq<Attempt>)

  /** `go` of a line of `n` steps from `current`; `base` is the flat position of its first step. A line
      that is over, or empty, fails without attempting anything. */
  function Go(n: nat, current: nat, base: nat, ans: Answers, time: nat): (w: Went)
    requires current <= n
    ensures current <= w.current <= n && time <= w.time
    decreases n - current
  {
    if current == n then Went(current, time, Fail, []) else
    var r := ans(time);
    var tried := [Attempt(base + current, r)];
    if !r.Success? then Went(current, time + 1, r, tried)
    else if current + 1 == n then Went(n, time + 1, Success, tried)
    else
      var w := Go(n, current + 1, base, ans, time + 1);
      w.(log := tried + w.log)
  }

  /** A call attempts the steps from the cursor on, one at a time and each once: it answers what its last
      attempt answered, all attempts before it have succeeded, and the cursor stays on the step that failed
      or asked to be repeated, or is at the end of the line. */
  lemma {:induction false} GoAnswers(n: nat, current: nat, base: nat, ans: Answers, time: nat, i: nat)
    requires current <= n
    ensures var w := Go(n, current, base, ans, time);
      && (current == n ==> w == Went(n, time, Fail, []))
      && (current < n ==>
            && w.log != [] && w.time == time + |w.log| && w.result == w.log[|w.log| - 1].result
            && (if w.result.Success? then w.current == n else w.current == current + |w.log| - 1)
            && (w.result.Success? ==> |w.log| == n - current))
      && (i < |w.log| ==> w.log[i] == Attempt(base + current + i, ans(time + i)) && (w.log[i].result.Success? <==> i < w.current - current))
    decreases n - current
  {
    if current + 1 < n && ans(time).Success? {
      var rest := Go(n, current + 1, base, ans, time + 1);
      GoAnswers(n, current + 1, base, ans, time + 1, if i > 0 then i - 1 else 0);
      assert Go(n, current, base, ans, time) == rest.(log := [Attempt(base + current, Success)] + rest.log);
      hide Go;
    }
  }

  // ----- lines of lines

  /** A step is a plain callback or the `go` of an inner line of the given length. */
  datatype Step = Leaf | Inner(size: nat)

  function Size(s: Step): nat {
    if s.Leaf? then 1 else s.size
  }

  /** Flat position of the first step of entry `i`. */
  function Offset(line: seq<Step>, i: nat): nat
    requires i <= |line|
  {
    if i == 0 then 0 else Offset(line, i - 1) + Size(line[i - 1])
  }

  /** The cursors of the outer line and of every inner line. */
  datatype Nested = Nested(outer: nat, inner: seq<nat>)

  ghost predicate InStep(line: seq<Step>, c: Nested) {
    && c.outer <= |line| && |c.inner| == |line|
    && (forall i :: 0 <= i < |line| && line[i].Inner? ==>
          && (i < c.outer ==> c.inner[i] == line[i].size)
          && (i == c.outer ==> c.inner[i] < line[i].size)
          && (i > c.outer ==> c.inner[i] == 0))
  }

  /** No inner line is empty. */
  ghost predicate Solid(line: seq<Step>) {
    forall i :: 0 <= i < |line| ==> Size(line[i]) > 0
  }

  function Position(line: seq<Step>, c: Nested): nat
    requires c.outer <= |line| && |c.inner| == |line|
  {
    Offset(line, c.outer) + if c.outer < |line| && line[c.outer].Inner? then c.inner[c.outer] else 0
  }

  datatype WentNested = WentNested(cursors: Nested, time: nat, result: Result, log: seq<Attempt>)

  ghost predicate Within(line: seq<Step>, c: Nested) {
    && c.outer <= |line| && |c.inner| == |line|
    && forall i :: 0 <= i < |line| && line[i].Inner? ==> c.inner[i] <= line[i].size
  }

  /** One attempt at the current step of the outer line. */
  function StepOnce(line: seq<Step>, c: Nested, ans: Answers, time: nat): Went
    requires Within(line, c) && c.outer < |line|
  {
    var base := Offset(line, c.outer);
    if line[c.outer].Leaf? then Went(if ans(time).Success? then 1 else 0, time + 1, ans(time), [Attempt(base, ans(time))])
    else Go(line[c.outer].size, c.inner[c.outer], base, ans, time)
  }

  /** The cursors after that attempt. */
  function After(line: seq<Step>, c: Nested, w: Went): Nested
    requires c.outer < |line| && |c.inner| == |line|
  {
    Nested(if w.result.Success? then c.outer + 1 else c.outer,
           if line[c.outer].Inner? then c.inner[c.outer := w.current] else c.inner)
  }

  /** `go` of the outer line. */
  function GoNested(line: seq<Step>, c: Nested, ans: Answers, time: nat): WentNested
    requires Within(line, c)
    decreases |line| - c.outer
  {
    if c.outer == |line| then WentNested(c, time, Fail, []) else
    var w := StepOnce(line, c, ans, time);
    var c1 := After(line, c, w);
    if !w.result.Success? || c1.outer == |line| then WentNested(c1, w.time, w.result, w.log)
    else
      var rest := GoNested(line, c1, ans, w.time);
      rest.(log := w.log + rest.log)
  }

  lemma {:induction false} OffsetGrows(line: seq<Step>, i: nat, j: nat)
    requires i <= j <= |line|
    ensures Offset(line, i) <= Offset(line, j)
    decreases j - i
  {
    if i < j {
      OffsetGrows(line, i, j - 1);
    }
  }

  lemma OffsetPasses(line: seq<Step>, i: nat)
    requires Solid(line) && i < |line|
    ensures Offset(line, i + 1) == Offset(line, i) + Size(line[i])
    ensures Offset(line, i) < Offset(line, i + 1) <= Offset(line, |line|)
    ensures i + 1 < |line| ==> Offset(line, i + 1) < Offset(line, |line|)
  {
    OffsetGrows(line, i + 1, |line|);
    if i + 1 < |line| {
      OffsetGrows(line, i + 2, |line|);
    }
  }

  /** A stretch of a line run by its inner line, or step by step in the flat line, is the same. */
  lemma {:induction false} InnerIsFlat(n: nat, c: nat, base: nat, total: nat, ans: Answers, time: nat)
    requires c < n && base + n <= total
    ensures var w := Go(n, c, base, ans, time);
      var flat := Go(total, base + c, 0, ans, time);
      if !w.result.Success? then
        w.current < n && flat == Went(base + w.current, w.time, w.result, w.log)
      else
        w.current == n &&
        flat == if base + n == total then Went(total, w.time, Success, w.log)
                else (var rest := Go(total, base + n, 0, ans, w.time); rest.(log := w.log + rest.log))
    decreases n - c
  {
    var r := ans(time);
    if r.Success? && c + 1 < n {
      InnerIsFlat(n, c + 1, base, total, ans, time + 1);
      var w := Go(n, c + 1, base, ans, time + 1);
      if w.result.Success? && base + n < total {
        var rest := Go(total, base + n, 0, ans, w.time);
        assert [Attempt(base + c, r)] + (w.log + rest.log) == [Attempt(base + c, r)] + w.log + rest.log;
      }
    }
  }

  /** An attempt `w` at the outer step under the cursors, seen from the flat line. */
  ghost predicate FlatStep(line: seq<Step>, c: Nested, w: Went, ans: Answers, time: nat)
    requires c.outer < |line| && |c.inner| == |line|
  {
    var c1 := After(line, c, w);
    var total := Offset(line, |line|);
    && InStep(line, c1) && Position(line, c) <= total && Position(line, c1) <= total
    && Go(total, Position(line, c), 0, ans, time) ==
       if !w.result.Success? || c1.outer == |line| then Went(Position(line, c1), w.time, w.result, w.log)
       else (var rest := Go(total, Position(line, c1), 0, ans, w.time); rest.(log := w.log + rest.log))
  }

  lemma InnerStepIsFlat(line: seq<Step>, c: Nested, ans: Answers, time: nat)
    requires Solid(line) && InStep(line, c) && c.outer < |line| && line[c.outer].Inner?
    ensures FlatStep(line, c, StepOnce(line, c, ans, time), ans, time)
  {
    var i := c.outer;
    OffsetPasses(line, i);
    InnerIsFlat(line[i].size, c.inner[i], Offset(line, i), Offset(line, |line|), ans, time);
    hide Go;
  }

  lemma LeafStepIsFlat(line: seq<Step>, c: Nested, ans: Answers, time: nat)
    requires Solid(line) && InStep(line, c) && c.outer < |line| && line[c.outer].Leaf?
    ensures FlatStep(line, c, StepOnce(line, c, ans, time), ans, time)
  {
    var i := c.outer;
    OffsetPasses(line, i);
    LeafIsGo(Offset(line, i), ans, time);
    InnerIsFlat(1, 0, Offset(line, i), Offset(line, |line|), ans, time);
    hide Go;
  }

  lemma LeafIsGo(base: nat, ans: Answers, time: nat)
    ensures Go(1, 0, base, ans, time) ==
      Went(if ans(time).Success? then 1 else 0, time + 1, ans(time), [Attempt(base, ans(time))])
  {
  }

  /** One call of the outer line is one call of the flat line: the same attempts, the same answer, the
      cursor at the same place. */
  lemma {:induction false} NestedIsFlat(line: seq<Step>, c: Nested, ans: Answers, time: nat)
    requires Solid(line) && InStep(line, c)
    ensures var w := GoNested(line, c, ans, time);
      && InStep(line, w.cursors)
      && Position(line, c) <= Offset(line, |line|)
      && Go(Offset(line, |line|), Position(line, c), 0, ans, time) ==
         Went(Position(line, w.cursors), w.time, w.result, w.log)
    decreases |line| - c.outer
  {
    if c.outer < |line| {
      if line[c.outer].Leaf? {
        LeafStepIsFlat(line, c, ans, time);
      } else {
        InnerStepIsFlat(line, c, ans, time);
      }
      var w := StepOnce(line, c, ans, time);
      var c1 := After(line, c, w);
      if w.result.Success? && c1.outer < |line| {
        hide Go, Position, Offset, StepOnce;
        NestedIsFlat(line, c1, ans, w.time);
      }
    }
  }

  // ----- repeated calls

  /** `calls` calls of the flat line, one after the other. */
  function Calls(n: nat, current: nat, ans: Answers, time: nat, calls: nat): (w: Went)
    requires current <= n
    ensures current <= w.current <= n
    decreases calls
  {
    if calls == 0 then Went(current, time, Repeat, []) else
    var w := Go(n, current, 0, ans, time);
    var rest := Calls(n, w.current, ans, w.time, calls - 1);
    rest.(log := w.log + rest.log)
  }

  function NestedCalls(line: seq<Step>, c: Nested, ans: Answers, time: nat, calls: nat): WentNested
    requires Solid(line) && InStep(line, c)
    decreases calls
  {
    if calls == 0 then WentNested(c, time, Repeat, []) else
    var w := GoNested(line, c, ans, time);
    NestedIsFlat(line, c, ans, time);
    var rest := NestedCalls(line, w.cursors, ans, w.time, calls - 1);
    rest.(log := w.log + rest.log)
  }

  /** The positions attempted successfully, in order. */
  function Done(log: seq<Attempt>): seq<nat> {
    if log == [] then [] else (if log[0].result.Success? then [log[0].at] else []) + Done(log[1..])
  }

  lemma DoneCons(x: Attempt, rest: seq<Attempt>)
    ensures Done([x] + rest) == (if x.result.Success? then [x.at] else []) + Done(rest)
  {
    assert ([x] + rest)[1..] == rest;
  }

  lemma {:induction false} DoneAppend(a: seq<Attempt>, b: seq<Attempt>)
    ensures Done(a + b) == Done(a) + Done(b)
    decreases |a|
  {
    if a == [] {
      assert a + b == b;
    } else {
      var (x, rest) := (a[0], a[1..]);
      assert a == [x] + rest && a + b == [x] + (rest + b);
      DoneCons(x, rest);
      DoneCons(x, rest + b);
      hide Done;
      DoneAppend(rest, b);
      Assoc(if x.result.Success? then [x.at] else [], Done(rest), Done(b));
    }
  }

  function Range(from: nat, end: nat): seq<nat>
    requires from <= end
  {
    seq(end - from, i => from + i)
  }

  lemma RangeJoins(a: nat, b: nat, c: nat)
    requires a <= b <= c
    ensures Range(a, b) + Range(b, c) == Range(a, c)
  {
  }

  lemma {:induction false} GoInOrder(n: nat, c: nat, ans: Answers, time: nat)
    requires c <= n
    ensures var w := Go(n, c, 0, ans, time); Done(w.log) == Range(c, w.current)
    decreases n - c
  {
    if c < n && ans(time).Success? {
      if c + 1 < n {
        GoInOrder(n, c + 1, ans, time + 1);
      }
      var w := Go(n, c, 0, ans, time);
      assert w.log[0] == Attempt(c, Success);
      assert w.log[1..] == if c + 1 < n then Go(n, c + 1, 0, ans, time + 1).log else [];
      assert Range(c, w.current) == [c] + Range(c + 1, w.current);
    }
  }

  lemma {:induction false} CallsInOrder(n: nat, c: nat, ans: Answers, time: nat, calls: nat)
    requires c <= n
    ensures var w := Calls(n, c, ans, time, calls); Done(w.log) == Range(c, w.current)
    decreases calls
  {
    if calls > 0 {
      var w := Go(n, c, 0, ans, time);
      var rest := Calls(n, w.current, ans, w.time, calls - 1);
      GoInOrder(n, c, ans, time);
      CallsInOrder(n, w.current, ans, w.time, calls - 1);
      DoneAppend(w.log, rest.log);
      RangeJoins(c, w.current, rest.current);
    }
  }

  lemma {:induction false} CallsAreFlat(line: seq<Step>, c: Nested, ans: Answers, time: nat, calls: nat)
    requires Solid(line) && InStep(line, c)
    ensures var w := NestedCalls(line, c, ans, time, calls);
      && InStep(line, w.cursors) && Position(line, c) <= Offset(line, |line|)
      && Calls(Offset(line, |line|), Position(line, c), ans, time, calls) ==
         Went(Position(line, w.cursors), w.time, w.result, w.log)
    decreases calls
  {
    NestedIsFlat(line, c, ans, time);
    if calls > 0 {
      var w := GoNested(line, c, ans, time);
      CallsAreFlat(line, w.cursors, ans, w.time, calls - 1);
    }
  }

  function Fresh(line: seq<Step>): Nested {
    Nested(0, seq(|line|, _ => 0))
  }

  /** However the steps answer and however often the outer line is called, the inner steps that have
      succeeded are exactly the first ones of the flattened line, each once and in order; an inner line
      that is finished is not entered again. */
  lemma SucceedsOnceInOrder(line: seq<Step>, ans: Answers, calls: nat)
    requires Solid(line)
    ensures InStep(line, Fresh(line))
    ensures var w := NestedCalls(line, Fresh(line), ans, 0, calls);
      && InStep(line, w.cursors)
      && Done(w.log) == Range(0, Position(line, w.cursors))
  {
    var c := Fresh(line);
    assert Position(line, c) == 0;
    CallsAreFlat(line, c, ans, 0, calls);
    CallsInOrder(Offset(line, |line|), 0, ans, 0, calls);
  }

  /** Flattening needs every inner line to have a step: an empty one fails the call at once. */
  lemma EmptyInnerFails(line: seq<Step>, c: Nested, ans: Answers, time: nat)
    requires Within(line, c) && c.outer < |line| && line[c.outer] == Inner(0)
    ensures GoNested(line, c, ans, time) == WentNested(c, time, Fail, [])
  {
    assert c.inner[c.outer := 0] == c.inner;
  }

  // ----- the line object

  ghost predicate Resumes(whole: Went, done: seq<Attempt>, rest: Went) {
    whole == rest.(log := done + rest.log)
  }

  /** One attempt of a call: the call ends with it, or goes on behind it. */
  lemma GoStep(whole: Went, done: seq<Attempt>, n: nat, current: nat, base: nat, ans: Answers, time: nat)
    requires current < n && Resumes(whole, done, Go(n, current, base, ans, time))
    ensures var r := ans(time);
      var log := done + [Attempt(base + current, r)];
      if !r.Success? then whole == Went(current, time + 1, r, log)
      else if current + 1 == n then whole == Went(n, time + 1, Success, log)
      else Resumes(whole, log, Go(n, current + 1, base, ans, time + 1))
  {
    var r := ans(time);
    if r.Success? && current + 1 < n {
      Assoc(done, [Attempt(base + current, r)], Go(n, current + 1, base, ans, time + 1).log);
    }
  }

  lemma GoStart(n: nat, current: nat, base: nat, ans: Answers, time: nat)
    requires current <= n
    ensures Resumes(Go(n, current, base, ans, time), [], Go(n, current, base, ans, time))
    ensures current == n ==> Go(n, current, base, ans, time) == Went(current, time, Fail, [])
  {
  }

  class ActionLine {
    const size: nat
    var current: nat
    var iStep: nat

    constructor (size: nat)
      ensures this.size == size && current == 0 && iStep == 0
    {
      this.size, current, iStep := size, 0, 0;
    }

    method GoLine(ghost base: nat, ans: Answers, time: nat) returns (r: Result, later: nat, ghost log: seq<Attempt>)
      requires current <= size
      modifies this`current, this`iStep
      ensures Went(current, later, r, log) == Go(size, old(current), base, ans, time)
      ensures current - iStep == old(current - iStep)
    {
      later, log := time, [];
      GoStart(size, current, base, ans, time);
      hide Go, Resumes;
      if current == size {
        return Fail, later, log;
      }
      ghost var whole := Go(size, current, base, ans, time);
      r := Success;
      while current < size && r.Success?
        invariant current <= size && current - iStep == old(current - iStep)
        invariant r.Success? && current < size ==> Resumes(whole, log, Go(size, current, base, ans, later))
        invariant !r.Success? || current == size ==> whole == Went(current, later, r, log)
        decreases r.Success?, size - current
      {
        r, log := CallStep(whole, log, base, ans, later);
        later := later + 1;
      }
    }

    /** One callback: the cursor moves on when it succeeds. */
    method CallStep(ghost whole: Went, ghost done: seq<Attempt>, ghost base: nat, ans: Answers, time: nat)
      returns (r: Result, ghost log: seq<Attempt>)
      requires current < size && Resumes(whole, done, Go(size, current, base, ans, time))
      modifies this`current, this`iStep
      ensures current == old(current) + (if r.Success? then 1 else 0) && current - iStep == old(current - iStep)
      ensures !r.Success? || current == size ==> whole == Went(current, time + 1, r, log)
      ensures r.Success? && current < size ==> Resumes(whole, log, Go(size, current, base, ans, time + 1))
    {
      GoStep(whole, done, size, current, base, ans, time);
      hide Go, Resumes;
      r := ans(time);
      log := done + [Attempt(base + current, r)];
      if r.Success? {
        current := current + 1;
        iStep := iStep + 1;
      }
    }
  }
}
