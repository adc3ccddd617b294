/** The interrupt bookkeeping of spinlock.c. Each acquire pushes and each release pops, so that
    interrupts come back on exactly when the last lock is released and they were on before. */
module Spinlock {
  datatype Intr = Intr(on: bool, noff: int, intena: bool)

  datatype Event = Push | Pop

  function Pushed(i: Intr): Intr {
    Intr(false, i.noff + 1, if i.noff == 0 then i.on else i.intena)
  }

  /** pop_off panics with interrupts on, or without a matching push_off. */
  predicate PopOk(i: Intr) {
    !i.on && i.noff >= 1
  }

  function Popped(i: Intr): Intr {
    Intr(i.on || (i.noff == 1 && i.intena), i.noff - 1, i.intena)
  }

  function After(i: Intr, es: seq<Event>): Intr {
    if es == [] then i else
      var j := After(i, es[..|es| - 1]);
      if es[|es| - 1] == Push then Pushed(j) else Popped(j)
  }

  function Depth(es: seq<Event>): int {
    if es == [] then 0 else Depth(es[..|es| - 1]) + if es[|es| - 1] == Push then 1 else -1
  }

  /** No release comes before its acquire; the order of the releases is free. */
  ghost predicate Matched(es: seq<Event>) {
    forall n :: 0 <= n <= |es| ==> Depth(es[..n]) >= 0
  }

  /** From a state with no lock held: after any matched events, interrupts are on exactly when no
      lock is held and they were on at the start, and the next matched pop does not panic. */
  lemma {:induction false} NestedOff(on: bool, intena: bool, es: seq<Event>)
    requires Matched(es)
    ensures var i := After(Intr(on, 0, intena), es);
      && i.noff == Depth(es) && i.on == (on && Depth(es) == 0)
      && (Depth(es) > 0 ==> i.intena == on && PopOk(i))
  {
    if es != [] {
      var p := es[..|es| - 1];
      assert forall n :: 0 <= n <= |p| ==> p[..n] == es[..n];
      assert Depth(es[..|es|]) >= 0 && es[..|es|] == es;
      NestedOff(on, intena, p);
    }
  }

  class Cpu {
    var on: bool
    var noff: int
    var intena: bool

    function View(): Intr
      reads this
    {
      Intr(on, noff, intena)
    }

    method PushOff()
      modifies this
      ensures View() == Pushed(old(View()))
    {
      var was := on;
      on := false;
      if noff == 0 {
        intena := was;
      }
      noff := noff + 1;
    }

    method PopOff() returns (panicked: bool)
      modifies this
      ensures panicked <==> !PopOk(old(View()))
      ensures View() == if panicked then old(View()) else Popped(old(View()))
    {
      if on || noff < 1 {
        return true;
      }
      noff := noff - 1;
      if noff == 0 && intena {
        on := true;
      }
      return false;
    }
  }
}
