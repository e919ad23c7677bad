/**
 * The robot arm and the other side effects of the program, seen as a log of
 * issued commands. Every call the Python code makes on the arm object
 * (`set_position`, `set_pump`, `set_polar`, the busy-wait on `get_is_moving`),
 * and the two blocking side effects that sit between arm calls (playing a
 * sound file, sleeping), is appended to one log, so that their order is visible.
 */
module Arm {
  import opened Wrappers

  /** A point (x, y, z) in the arm's coordinate frame. */
  type Position = (real, real, real)

  datatype Command =
    | SetPosition(x: Option<real>, y: Option<real>, z: Option<real>, speed: real, relative: bool, wait: bool)
    | SetPump(on: bool)
    | SetPolar(r: real, h: real, s: real, speed: real, relative: bool, wait: bool)
      /** `while bot.get_is_moving(): pass`, seen as one blocking wait */
    | WaitWhileMoving
    | PlaySound(file: string)
    | Sleep(seconds: real)

  /** `set_position(x, y, z, ...)` with all three coordinates given. */
  function MoveTo(p: Position, speed: real, relative: bool, wait: bool): (c: Command)
  {
    SetPosition(Some(p.0), Some(p.1), Some(p.2), speed, relative, wait)
  }

  lemma ConcatAssoc<T>(a: seq<T>, b: seq<T>, c: seq<T>)
    ensures a + (b + c) == (a + b) + c
  {
  }

  /** Number of commands in `cmds` that satisfy `p`. */
  function CountWhere(cmds: seq<Command>, p: Command -> bool): (n: nat)
    ensures n <= |cmds|
  {
    if cmds == [] then 0
    else CountWhere(cmds[..|cmds| - 1], p) + (if p(cmds[|cmds| - 1]) then 1 else 0)
  }

  lemma {:induction false} CountWhereAppend(a: seq<Command>, b: seq<Command>, p: Command -> bool)
    ensures CountWhere(a + b, p) == CountWhere(a, p) + CountWhere(b, p)
    decreases |b|
  {
    if b == [] {
      assert a + b == a;
    } else {
      assert (a + b)[..|a + b| - 1] == a + b[..|b| - 1];
      CountWhereAppend(a, b[..|b| - 1], p);
    }
  }

  lemma {:induction false} CountWhereNone(cmds: seq<Command>, p: Command -> bool)
    requires forall i :: 0 <= i < |cmds| ==> !p(cmds[i])
    ensures CountWhere(cmds, p) == 0
    decreases |cmds|
  {
    if cmds != [] {
      CountWhereNone(cmds[..|cmds| - 1], p);
    }
  }

  /** Whether the suction pump is on after `cmds`, when it was `before` on entry. */
  function PumpAfter(cmds: seq<Command>, before: bool): (on: bool)
    ensures (forall i :: 0 <= i < |cmds| ==> !cmds[i].SetPump?) ==> on == before
  {
    if cmds == [] then before
    else if cmds[|cmds| - 1].SetPump? then cmds[|cmds| - 1].on
    else PumpAfter(cmds[..|cmds| - 1], before)
  }

  lemma {:induction false} PumpAfterAppend(a: seq<Command>, b: seq<Command>, before: bool)
    ensures PumpAfter(a + b, before) == PumpAfter(b, PumpAfter(a, before))
    decreases |b|
  {
    if b == [] {
      assert a + b == a;
    } else {
      assert (a + b)[..|a + b| - 1] == a + b[..|b| - 1];
      PumpAfterAppend(a, b[..|b| - 1], before);
    }
  }

  /** The arm (a `SwiftAPI` object): it records every command issued to it. */
  class Bot {
    var log: seq<Command>

    constructor ()
      ensures log == []
    {
      log := [];
    }

    method Issue(c: Command)
      modifies this
      ensures log == old(log) + [c]
    {
      log := log + [c];
    }
  }
}
