/**
 * Callbacks demo: a message builder frames raw data with a header and a
 * footer and then hands the framed text to an encrypter callback, given
 * either as a function pointer or as an `Encryptor` function object.
 * Strings are sequences of signed `char` codes.
 */
module Callbacks {
  import opened CInt

  /** `'a'..'z'` or `'A'..'Z'`, the test both encrypters apply. */
  predicate IsLetter(c: int) {
    ('a' as int <= c <= 'z' as int) || ('A' as int <= c <= 'Z' as int)
  }

  const Header: seq<Char> := FromAscii("[HEADER]")
  const Footer: seq<Char> := FromAscii("[FooTER]")

  /** The complete, not yet encrypted message: header, raw data, footer. */
  function Frame(raw: seq<Char>): (r: seq<Char>)
    ensures |r| == |raw| + 16
    ensures r[..8] == Header && r[8..8 + |raw|] == raw && r[8 + |raw|..] == Footer
  {
    Header + raw + Footer
  }

  /**
   * `buildCompleteMessage(rawData, encrypterFunPtr)`: frame first, then
   * encrypt the whole framed text with the callback.
   */
  function BuildCompleteMessage(raw: seq<Char>, encrypter: seq<Char> -> seq<Char>): seq<Char>
  {
    encrypter(Frame(raw))
  }

  // ---------------------------------------------------------------------
  // encryptDataByLetterInc

  /** The function that `encryptDataByLetterInc` computes, one character at a time. */
  function IncLetters(s: seq<Char>): (r: seq<Char>)
    ensures |r| == |s|
    ensures forall i :: 0 <= i < |s| && IsLetter(s[i]) ==> r[i] == s[i] + 1
    ensures forall i :: 0 <= i < |s| && !IsLetter(s[i]) ==> r[i] == s[i]
  {
    if s == [] then []
    else [if IsLetter(s[0]) then s[0] + 1 else s[0]] + IncLetters(s[1..])
  }

  /**
   * `encryptDataByLetterInc`: walks a copy of `data` and increments every
   * ASCII letter in place; there is no wrap-around, so 'z' becomes '{'.
   */
  method EncryptDataByLetterInc(data: seq<Char>) returns (r: seq<Char>)
    ensures r == IncLetters(data)
  {
    r := data;
    var i := 0;
    while i < |r|
      invariant 0 <= i <= |r| == |data|
      invariant forall k :: 0 <= k < i && IsLetter(data[k]) ==> r[k] == data[k] + 1
      invariant forall k :: 0 <= k < i && !IsLetter(data[k]) ==> r[k] == data[k]
      invariant forall k :: i <= k < |r| ==> r[k] == data[k]
    {
      if ('a' as int <= r[i] <= 'z' as int) || ('A' as int <= r[i] <= 'Z' as int) {
        r := r[i := r[i] + 1];
      }
      i := i + 1;
    }
  }

  lemma IncLettersShiftsZ()
    ensures IncLetters(FromAscii("z")) == FromAscii("{")
    ensures IncLetters(FromAscii("Z")) == FromAscii("[")
  {
  }

  // ---------------------------------------------------------------------
  // MyFunctor

  /** `MyFunctor::operator()(a, b)`; signed overflow is undefined, so the sum must fit. */
  function MyFunctor(a: Int, b: Int): Int
    requires InInt(a + b)
  {
    a + b
  }

  /** `test1` calls `funObj(2, 3)`. */
  lemma MyFunctorTest1()
    ensures MyFunctor(2, 3) == 5
  {
  }

  // ---------------------------------------------------------------------
  // Encryptor

  /** The state an `Encryptor` function object carries. */
  datatype Encryptor = Encryptor(isIncremental: bool, count: Int)

  /** `Encryptor()`: the default object decrements by one. */
  function DefaultEncryptor(): (e: Encryptor)
    ensures forall c: Char :: IsLetter(c) ==> InInt(ShiftValue(e, c)) && NarrowToChar(ShiftValue(e, c)) == c - 1
  {
    Encryptor(false, 1)
  }

  /** The `int` value `data[i] + m_count` or `data[i] - m_count`, before it is stored back. */
  function ShiftValue(e: Encryptor, c: Char): int {
    if e.isIncremental then c + e.count else c - e.count
  }

  /** Every letter's shifted value is a defined (non-overflowing) `int` computation. */
  predicate Defined(e: Encryptor, s: seq<Char>) {
    forall i :: 0 <= i < |s| && IsLetter(s[i]) ==> InInt(ShiftValue(e, s[i]))
  }

  /** The function `Encryptor::operator()` computes, one character at a time. */
  function Encrypt(e: Encryptor, s: seq<Char>): (r: seq<Char>)
    requires Defined(e, s)
    ensures |r| == |s|
    ensures forall i :: 0 <= i < |s| && IsLetter(s[i]) ==> r[i] == NarrowToChar(ShiftValue(e, s[i]))
    ensures forall i :: 0 <= i < |s| && !IsLetter(s[i]) ==> r[i] == s[i]
  {
    if s == [] then []
    else
      assert Defined(e, s[1..]) by {
        forall i | 0 <= i < |s[1..]| && IsLetter(s[1..][i]) ensures InInt(ShiftValue(e, s[1..][i])) {
          assert s[1..][i] == s[i + 1];
        }
      }
      [if IsLetter(s[0]) then NarrowToChar(ShiftValue(e, s[0])) else s[0]] + Encrypt(e, s[1..])
  }

  /**
   * `Encryptor::operator()(data)`: walks a copy of `data`, adding or
   * subtracting `m_count` to every letter and storing the result back
   * into a `char`.
   */
  method Apply(e: Encryptor, data: seq<Char>) returns (r: seq<Char>)
    requires Defined(e, data)
    ensures r == Encrypt(e, data)
  {
    r := data;
    var i := 0;
    while i < |r|
      invariant 0 <= i <= |r| == |data|
      invariant forall k :: 0 <= k < i && IsLetter(data[k]) ==> r[k] == NarrowToChar(ShiftValue(e, data[k]))
      invariant forall k :: 0 <= k < i && !IsLetter(data[k]) ==> r[k] == data[k]
      invariant forall k :: i <= k < |r| ==> r[k] == data[k]
    {
      if ('a' as int <= r[i] <= 'z' as int) || ('A' as int <= r[i] <= 'Z' as int) {
        if e.isIncremental {
          r := r[i := NarrowToChar(r[i] + e.count)];
        } else {
          r := r[i := NarrowToChar(r[i] - e.count)];
        }
      }
      i := i + 1;
    }
  }

  /** `buildCompleteMessage(rawData, encyptorFuncObj)`. */
  function BuildCompleteMessageWith(raw: seq<Char>, e: Encryptor): (r: seq<Char>)
    requires Defined(e, Frame(raw))
    ensures |r| == |raw| + 16
  {
    Encrypt(e, Frame(raw))
  }

  // ---------------------------------------------------------------------
  // Properties

  /** Encryption works character by character, so it distributes over concatenation. */
  lemma {:induction false} EncryptConcat(e: Encryptor, a: seq<Char>, b: seq<Char>)
    requires Defined(e, a + b)
    ensures Defined(e, a) && Defined(e, b)
    ensures Encrypt(e, a + b) == Encrypt(e, a) + Encrypt(e, b)
  {
    assert forall i :: 0 <= i < |a| ==> (a + b)[i] == a[i];
    assert forall i :: 0 <= i < |b| ==> (a + b)[|a| + i] == b[i];
    var x, y := Encrypt(e, a + b), Encrypt(e, a) + Encrypt(e, b);
    assert |x| == |y|;
    forall i | 0 <= i < |x|
      ensures x[i] == y[i]
    {
      if i < |a| {
        assert (a + b)[i] == a[i];
      } else {
        assert (a + b)[i] == b[i - |a|];
      }
    }
  }

  /** Letter increments work character by character too. */
  lemma {:induction false} IncLettersDistributes(a: seq<Char>, b: seq<Char>)
    ensures IncLetters(a + b) == IncLetters(a) + IncLetters(b)
  {
    if a == [] {
      assert a + b == b;
    } else {
      assert (a + b)[1..] == a[1..] + b;
      IncLettersDistributes(a[1..], b);
    }
  }

  /** `Encryptor(true, 1)` computes exactly what `encryptDataByLetterInc` does. */
  lemma EncryptorIncOneIsLetterInc(s: seq<Char>)
    ensures Defined(Encryptor(true, 1), s)
    ensures Encrypt(Encryptor(true, 1), s) == IncLetters(s)
  {
  }

  /** The default `Encryptor()` lowers every letter by exactly one and keeps everything else. */
  lemma DefaultEncryptorDecrements(s: seq<Char>)
    ensures Defined(DefaultEncryptor(), s)
    ensures |Encrypt(DefaultEncryptor(), s)| == |s|
    ensures forall i :: 0 <= i < |s| && IsLetter(s[i]) ==> Encrypt(DefaultEncryptor(), s)[i] == s[i] - 1
    ensures forall i :: 0 <= i < |s| && !IsLetter(s[i]) ==> Encrypt(DefaultEncryptor(), s)[i] == s[i]
  {
  }

  /**
   * Decrementing by `k` undoes incrementing by `k` when every incremented
   * letter is still a letter (no letter crosses past 'z' or 'Z' into
   * punctuation).
   */
  lemma {:induction false} EncryptRoundTrip(s: seq<Char>, k: Int)
    requires forall i :: 0 <= i < |s| && IsLetter(s[i]) ==> IsLetter(s[i] + k)
    ensures Defined(Encryptor(true, k), s)
    ensures Defined(Encryptor(false, k), Encrypt(Encryptor(true, k), s))
    ensures Encrypt(Encryptor(false, k), Encrypt(Encryptor(true, k), s)) == s
  {
    var t := Encrypt(Encryptor(true, k), s);
    forall i | 0 <= i < |s| && IsLetter(s[i])
      ensures t[i] == s[i] + k
    {
      assert InInt(s[i] + k);
    }
    var u := Encrypt(Encryptor(false, k), t);
    forall i | 0 <= i < |s|
      ensures u[i] == s[i]
    {
    }
  }

  /** The round trip is lost once a letter is pushed past 'z'. */
  lemma ShiftedZIsNotRestored()
    ensures Encrypt(Encryptor(false, 1), Encrypt(Encryptor(true, 1), FromAscii("z"))) == FromAscii("{")
  {
  }

  /**
   * Framing happens before encryption, so the header and footer are
   * encrypted too: with `encryptDataByLetterInc` the message reads
   * "[IFBEFS]" + shifted data + "[GppUFS]".
   */
  lemma BuildWithLetterInc(raw: seq<Char>)
    ensures BuildCompleteMessage(raw, IncLetters) == FromAscii("[IFBEFS]") + IncLetters(raw) + FromAscii("[GppUFS]")
  {
    IncLettersDistributes(Header + raw, Footer);
    IncLettersDistributes(Header, raw);
    HeaderFooterShifted();
  }

  lemma HeaderFooterShifted()
    ensures IncLetters(Header) == FromAscii("[IFBEFS]")
    ensures IncLetters(Footer) == FromAscii("[GppUFS]")
  {
  }

  /** With a function object, the message is the encrypted header, data and footer, in that order. */
  lemma BuildWithEncryptor(raw: seq<Char>, e: Encryptor)
    requires Defined(e, Frame(raw))
    ensures Defined(e, Header) && Defined(e, raw) && Defined(e, Footer)
    ensures BuildCompleteMessageWith(raw, e) == Encrypt(e, Header) + Encrypt(e, raw) + Encrypt(e, Footer)
  {
    EncryptConcat(e, Header + raw, Footer);
    EncryptConcat(e, Header, raw);
  }
}
