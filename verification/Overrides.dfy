/** The override keys (protocol.c, the motion and spindle overrides), in variables of 8 bits. */
module Overrides {

  const DEFAULT_OVERRIDE := 100
  const MIN_OVERRIDE := 10
  const MAX_OVERRIDE := 200
  const COARSE_INCREMENT := 10
  const FINE_INCREMENT := 1

  /** The keys that have been pressed since the last poll. */
  datatype Keys = Keys(reset: bool, coarsePlus: bool, coarseMinus: bool, finePlus: bool, fineMinus: bool)

  function Step(pressed: bool, increment: int): int {
    if pressed then increment else 0
  }

  /** Where the keys lead from an override of `f` percent. */
  function Sum(f: int, k: Keys): int {
    (if k.reset then DEFAULT_OVERRIDE else f)
    + Step(k.coarsePlus, COARSE_INCREMENT) - Step(k.coarseMinus, COARSE_INCREMENT)
    + Step(k.finePlus, FINE_INCREMENT) - Step(k.fineMinus, FINE_INCREMENT)
  }

  /** Each key does its part, whatever else is pressed: ten percent or one, up or down; and the reset key
      makes it start from 100. */
  lemma EachKey(f: int, k: Keys)
    ensures Sum(f, Keys(false, false, false, false, false)) == f
            && Sum(f, Keys(true, false, false, false, false)) == 100
    ensures k.reset ==> Sum(f, k) == Sum(100, k.(reset := false))
    ensures Sum(f, k.(coarsePlus := true)) == Sum(f, k.(coarsePlus := false)) + 10
    ensures Sum(f, k.(coarseMinus := true)) == Sum(f, k.(coarseMinus := false)) - 10
    ensures Sum(f, k.(finePlus := true)) == Sum(f, k.(finePlus := false)) + 1
    ensures Sum(f, k.(fineMinus := true)) == Sum(f, k.(fineMinus := false)) - 1
  {
  }

  /** As a `uint8_t`. */
  function Byte(n: int): nat
    requires -256 <= n < 512
  {
    if n < 0 then n + 256 else if n > 255 then n - 256 else n
  }

  function Clamped(f: int): int {
    if f < MIN_OVERRIDE then MIN_OVERRIDE else if f > MAX_OVERRIDE then MAX_OVERRIDE else f
  }

  /** Both decrements arrive together, and nothing else, when the override is at its minimum. */
  predicate Wraps(f: int, k: Keys) {
    f == MIN_OVERRIDE && k == Keys(false, false, true, false, true)
  }

  /** The new override. It is what the keys ask for, within the limits, exactly unless they wrap:
      then it is the greatest there is instead of the least. */
  method NewOverride(f: nat, k: Keys) returns (r: nat)
    requires MIN_OVERRIDE <= f <= MAX_OVERRIDE
    ensures MIN_OVERRIDE <= r <= MAX_OVERRIDE
    ensures r == Clamped(Sum(f, k)) <==> !Wraps(f, k)
    ensures Wraps(f, k) ==> r == MAX_OVERRIDE && Clamped(Sum(f, k)) == MIN_OVERRIDE
  {
    r := f;
    if k.reset {
      r := DEFAULT_OVERRIDE;
    }
    if k.coarsePlus {
      r := Byte(r + COARSE_INCREMENT);
    }
    if k.coarseMinus {
      r := Byte(r - COARSE_INCREMENT);
    }
    if k.finePlus {
      r := Byte(r + FINE_INCREMENT);
    }
    if k.fineMinus {
      r := Byte(r - FINE_INCREMENT);
    }
    if r > MAX_OVERRIDE {
      r := MAX_OVERRIDE;
    }
    if r < MIN_OVERRIDE {
      r := MIN_OVERRIDE;
    }
  }
}
