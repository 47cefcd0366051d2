/**
 * Lambda demo: three `std::for_each` passes over a five-element array with
 * lambdas that capture by reference, by value, or nothing, and a mutable
 * lambda that changes only its own copies of the captured variables. What
 * the lambdas print is returned as the sequence of elements they received.
 */
module Lambda {
  import opened CInt

  /**
   * Pass 1, `[&](int x) { mul = 3; }`: every element is received by value,
   * in order, and the outer `mul` is reassigned through the reference.
   */
  method CaptureByReferencePass(arr: array<Int>, mul: Int) returns (received: seq<Int>, mulAfter: Int)
    ensures received == arr[..]
    ensures mulAfter == if arr.Length > 0 then 3 else mul
  {
    received, mulAfter := [], mul;
    for i := 0 to arr.Length
      invariant received == arr[..i]
      invariant mulAfter == if i > 0 then 3 else mul
    {
      var x := arr[i];
      received := received + [x];
      mulAfter := 3;
    }
  }

  /** Every element of `s` times `m`. */
  function Scaled(s: seq<int>, m: int): (r: seq<int>)
    ensures |r| == |s|
    ensures forall i :: 0 <= i < |s| ==> r[i] == s[i] * m
  {
    if s == [] then [] else [s[0] * m] + Scaled(s[1..], m)
  }

  /** No product overflows `int`, which would be undefined. */
  predicate ProductsFit(s: seq<int>, m: int) {
    forall i :: 0 <= i < |s| ==> InInt(s[i] * m)
  }

  /**
   * Pass 2, `[=](int &x) { x = x * mul; }`: `mul` is a copy taken when the
   * lambda is made, and each element is scaled in place through `int &`.
   */
  method CaptureByValuePass(arr: array<Int>, mul: Int)
    requires ProductsFit(arr[..], mul)
    modifies arr
    ensures arr[..] == Scaled(old(arr[..]), mul)
  {
    for i := 0 to arr.Length
      invariant forall k :: 0 <= k < i ==> arr[k] == old(arr[k]) * mul
      invariant forall k :: i <= k < arr.Length ==> arr[k] == old(arr[k])
    {
      assert InInt(old(arr[..])[i] * mul);
      arr[i] := arr[i] * mul;
    }
  }

  /** Pass 3, `[](int x) { ... }`: captures nothing and receives copies; the array cannot change. */
  method CaptureNothingPass(arr: array<Int>) returns (received: seq<Int>)
    ensures received == arr[..]
  {
    received := [];
    for i := 0 to arr.Length
      invariant received == arr[..i]
    {
      var x := arr[i];
      received := received + [x];
    }
  }

  /**
   * `main`'s three passes over `{1, 2, 3, 4, 5}` with `mul = 5`: the first
   * pass sees the original elements and sets `mul` to 3, the second scales
   * by 3, the third sees the scaled elements.
   */
  method ForEachPasses() returns (first: seq<int>, mul: int, third: seq<int>, final: seq<int>)
    ensures first == [1, 2, 3, 4, 5]
    ensures mul == 3
    ensures third == [3, 6, 9, 12, 15] && final == third
  {
    var arr := new Int[5];
    arr[0], arr[1], arr[2], arr[3], arr[4] := 1, 2, 3, 4, 5;
    var m: Int := 5;
    first, m := CaptureByReferencePass(arr, m);
    CaptureByValuePass(arr, m);
    assert arr[..] == Scaled([1, 2, 3, 4, 5], 3);
    third := CaptureNothingPass(arr);
    mul, final := m, arr[..];
  }

  // ---------------------------------------------------------------------
  // captureLocalVariables

  /** The closure object of `[msg, counter]() mutable { ... }`: its own copies of the captures. */
  class MutableClosure {
    var msg: string
    var counter: Int

    /** Capturing by value copies the current values of the outer variables. */
    constructor (msg: string, counter: Int)
      ensures this.msg == msg && this.counter == counter
    {
      this.msg, this.counter := msg, counter;
    }

    /** `operator()`: reports the captured copies, then overwrites them with "Temp" and 20. */
    method Call() returns (seenMsg: string, seenCounter: Int)
      modifies this
      ensures seenMsg == old(msg) && seenCounter == old(counter)
      ensures msg == "Temp" && counter == 20
    {
      seenMsg, seenCounter := msg, counter;
      msg := "Temp";
      counter := 20;
    }
  }

  /**
   * `captureLocalVariables`: inside the lambda the copies start as
   * "Hello"/10 and end as "Temp"/20; the outer variables stay "Hello"/10.
   */
  method CaptureLocalVariables()
    returns (seenMsg: string, seenCounter: int, copyMsg: string, copyCounter: int, msg: string, counter: int)
    ensures seenMsg == "Hello" && seenCounter == 10
    ensures copyMsg == "Temp" && copyCounter == 20
    ensures msg == "Hello" && counter == 10
  {
    msg, counter := "Hello", 10;
    var func := new MutableClosure(msg, counter);
    seenMsg, seenCounter := func.Call();
    copyMsg, copyCounter := func.msg, func.counter;
  }
}
