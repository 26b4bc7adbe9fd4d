/** The call stack (src/chip8/stack.rs): a growable LIFO of return addresses
    (`Vec<usize>`), with no depth bound. */
module Chip8Stack {

  class Stack {
    var stack: seq<nat>

    /** `Stack::new`: no return address is stored. */
    constructor ()
      ensures Entries() == []
    {
      stack := [];
    }

    /** `stack()`: the stored addresses, oldest first; reading changes nothing. */
    function Entries(): seq<nat>
      reads this
    {
      stack
    }

    /** `push`: `value` becomes the newest entry. */
    method Push(value: nat)
      modifies this
      ensures Entries() == old(Entries()) + [value]
    {
      stack := stack + [value];
    }

    /** `ret`: remove and return the newest entry. `pop().unwrap()` panics on
        an empty stack, so the stack must not be empty. */
    method Ret() returns (value: nat)
      requires Entries() != []
      modifies this
      ensures value == old(Entries())[|old(Entries())| - 1]
      ensures Entries() == old(Entries())[..|old(Entries())| - 1]
    {
      value := stack[|stack| - 1];
      stack := stack[..|stack| - 1];
    }
  }

  /** Last in, first out: a push followed by a `ret` gives back the pushed
      address and leaves the stack as it was. */
  method PushThenRet(s: Stack, value: nat) returns (popped: nat)
    modifies s
    ensures popped == value && s.Entries() == old(s.Entries())
  {
    s.Push(value);
    assert s.Entries()[..|s.Entries()| - 1] == old(s.Entries());
    popped := s.Ret();
  }
}
