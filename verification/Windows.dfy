/** The sender's credit counter (muxado/src/window.rs). */
module Windows {
  import opened Constrained

  /** `Window::inc` on values: credit above the maximum is thrown away. */
  function Raise(size: nat, max: nat, amount: nat): nat {
    if amount == 0 then size else Min(size + amount, max)
  }

  class Window {
    const maxSize: nat
    var size: nat

    ghost predicate Valid()
      reads this
    {
      size <= maxSize
    }

    constructor (capacity: nat)
      ensures Valid() && maxSize == capacity && size == capacity
    {
      maxSize := capacity;
      size := capacity;
    }

    method Inc(amount: nat)
      requires Valid()
      modifies this
      ensures Valid()
      ensures size == Raise(old(size), maxSize, amount)
      ensures size == old(size) + amount <==> old(size) + amount <= maxSize
      ensures old(size) + amount > maxSize ==> size == maxSize
    {
      if amount == 0 {
        return;
      }
      size := Min(size + amount, maxSize);
    }

    function Capacity(): nat
      reads this
    {
      size
    }

    method Dec(amount: nat) returns (actual: nat)
      requires Valid()
      modifies this
      ensures Valid()
      ensures actual == Min(old(size), amount)
      ensures size + actual == old(size)
    {
      actual := Min(size, amount);
      size := size - actual;
    }
  }
}
