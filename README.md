# C++11 tutorial demos: the sequential core, in Dafny

The repository is a set of standalone C++11 teaching demos. This project
models the parts of them that compute something checkable:

- **Callbacks** (`callbacks.dfy`): a message builder frames raw data as
  `"[HEADER]" + raw + "[FooTER]"` and then runs an encrypter callback over
  the whole framed text. The callback is a function pointer
  (`encryptDataByLetterInc`, which raises every ASCII letter by one) or an
  `Encryptor` function object (adds or subtracts `m_count` to every letter).
  `MyFunctor` adds two ints.
- **Rvalue references** (`rvalue_reference.dfy`): `Person`, whose temporary
  can be mutated, and `Container`, which owns a 20-int heap buffer. Its copy
  constructor deep-copies the buffer. Its move constructor and move
  assignment steal the pointer and null the source.
- **Multithreading, sequential effect** (`multithreading.dfy`): the
  unguarded wallet, the mutex wallet and the `lock_guard` wallet. Each
  `addMoney` counts the balance up one unit at a time. Also the
  data-loaded flag of the two event-handling applications.
- **Variadic templates** (`variadic_templates.dfy`): `sum`, the recursive
  expansion of a parameter pack into `a0 + (a1 + (... + an))`.
- **Lambdas** (`lambda.dfy`): the three `std::for_each` passes in `main`
  and the mutable by-value lambda of `captureLocalVariables`.

`c_int.dfy` holds the C++ scalar types: 32-bit `int` and signed `char`.

Modelling choices:

- A `std::string` is a sequence of signed `char` codes (-128..127), the
  usual ABI choice.
- Storing an out-of-range `int` into a `char` is modelled as two's-complement
  truncation (`CInt.NarrowToChar`). This is the C++20 rule and what the
  common compilers do.
- Signed `int` overflow is undefined behaviour. Every operation that could
  overflow requires that it does not.
- A function pointer or a function object passed to the message builder is
  a Dafny function value. `encryptDataByLetterInc` and
  `Encryptor::operator()` loop over a copy of the string; they are methods
  (`EncryptDataByLetterInc`, `Apply`) proved equal to the functions
  `IncLetters` and `Encrypt`. Those functions are what gets passed to the
  builder.
- The two function-pointer versions of `buildCompleteMessage`
  (callbacks/main.cpp:15-24 in namespace `functionPointers` and :69-78 in
  namespace `functionObjectsAndFunctors`) have the same body. Both are
  modelled by `Callbacks.BuildCompleteMessage`. The second is overloaded by
  the function-object version at :116-125,
  `Callbacks.BuildCompleteMessageWith`.
- `std::mutex` is a class with one field, `held`. Locking requires it free,
  unlocking requires it held. `std::lock_guard` is a class whose constructor
  locks and whose `Release` (the destructor) unlocks.
- `delete[]` in `~Container` is modelled by returning the pointer handed to
  it.
- The characters printed by a `for_each` lambda are returned as the
  sequence of elements it received.

## Model

| member | source | states |
|---|---|---|
| `Callbacks.Frame` | callbacks/main.cpp:18 | the framed message is the 8-character header, then the raw data unchanged, then the 8-character footer; it is 16 longer than the data |
| `Callbacks.BuildCompleteMessage` | callbacks/main.cpp:15-24 | frames the raw data, then applies the callback to the whole framed text; its properties are stated by `BuildWithLetterInc` (and by `BuildWithEncryptor` for the function-object version) |
| `Callbacks.BuildWithLetterInc` | callbacks/main.cpp:15-24 | framing comes before encryption: with `encryptDataByLetterInc` the message is "[IFBEFS]" + the shifted data + "[GppUFS]" |
| `Callbacks.HeaderFooterShifted` | callbacks/main.cpp:18-21 | the letters of the header and footer are shifted like the data: "[IFBEFS]" and "[GppUFS]" |
| `Callbacks.IncLetters` | callbacks/main.cpp:29-33 | length is preserved, every ASCII letter is raised by exactly 1, every other character is unchanged |
| `Callbacks.EncryptDataByLetterInc` | callbacks/main.cpp:27-35 | the in-place loop over the copy returns exactly `IncLetters(data)` |
| `Callbacks.IncLettersShiftsZ` | callbacks/main.cpp:31-32 | there is no wrap-around: 'z' becomes '{' and 'Z' becomes '[' |
| `Callbacks.MyFunctor` | callbacks/main.cpp:53-60 | `MyFunctor::operator()` adds its two ints; the sum must fit in `int`, since signed overflow is undefined |
| `Callbacks.MyFunctorTest1` | callbacks/main.cpp:56-66 | `funObj(2, 3)` is 5 |
| `CInt.NarrowToChar` | callbacks/main.cpp:107-109 | the stored `char` is congruent to the `int` value modulo 256, and equal to it when it fits |
| `Callbacks.Encrypt` | callbacks/main.cpp:102-111 | length is preserved, every letter becomes its value plus (or minus) `count`, narrowed to `char`, and every other character is unchanged |
| `Callbacks.Apply` | callbacks/main.cpp:102-111 | the in-place loop of `operator()` returns exactly `Encrypt(e, data)`, given that no letter's `int` shift overflows |
| `Callbacks.BuildCompleteMessageWith` | callbacks/main.cpp:116-125 | the function-object version frames, then encrypts: the message is 16 longer than the raw data |
| `Callbacks.EncryptConcat` | callbacks/main.cpp:103-109 | encryption works character by character, so it distributes over concatenation |
| `Callbacks.BuildWithEncryptor` | callbacks/main.cpp:116-125 | the function-object overload yields the encrypted header, data and footer, in that order |
| `Callbacks.EncryptorIncOneIsLetterInc` | callbacks/main.cpp:98-111 | `Encryptor(true, 1)` computes the same function as `encryptDataByLetterInc` on every string |
| `Callbacks.DefaultEncryptor` | callbacks/main.cpp:90-97 | the `Encryptor` datatype holds `m_isIncremental` and `m_count`; the default object lowers every letter by exactly 1, with no overflow |
| `Callbacks.DefaultEncryptorDecrements` | callbacks/main.cpp:94-97 | the default `Encryptor()` lowers every letter by exactly 1 and leaves everything else |
| `Callbacks.EncryptRoundTrip` | callbacks/main.cpp:98-111 | `Encryptor(false, k)` undoes `Encryptor(true, k)` whenever every shifted letter is still a letter |
| `Callbacks.ShiftedZIsNotRestored` | callbacks/main.cpp:104-109 | "z" shifted up and then down by 1 gives "{": a letter pushed out of the letter ranges is not restored |
| `RvalueReference.Person.constructor` | rvalue_reference/main.cpp:46-48 | a new person has age 10 |
| `RvalueReference.Person.IncrementAge` | rvalue_reference/main.cpp:49-52 | the age goes up by exactly 1 |
| `RvalueReference.PersonTest` | rvalue_reference/main.cpp:55-65 | the temporary returned by `getPerson()` can be incremented, to 11 |
| `RvalueReference.Container.constructor` | rvalue_reference/main.cpp:103-108 | a new container holds a fresh, non-null buffer of 20 ints |
| `RvalueReference.Container.Copy` | rvalue_reference/main.cpp:115-124 | the copy holds a fresh 20-int buffer, so it does not alias the source, equal to the source's element by element; the source is unchanged |
| `RvalueReference.CopyIsIndependent` | rvalue_reference/main.cpp:115-124 | writing through the copy leaves the original's buffer as it was |
| `RvalueReference.Container.Move` | rvalue_reference/main.cpp:127-136 | the new container holds exactly the source's former pointer and the source's pointer is null |
| `RvalueReference.MoveTransfersOwnership` | rvalue_reference/main.cpp:127-136 | after a move the source is empty and the target holds the original buffer |
| `RvalueReference.Container.MoveAssign` | rvalue_reference/main.cpp:139-153 | self-assignment changes nothing; otherwise this takes the source's pointer and the source is nulled; the previous buffer is not written (it leaks); `*this` is returned |
| `RvalueReference.Container.Destroy` | rvalue_reference/main.cpp:109-114 | only a non-null buffer is handed to `delete[]`, and the pointer ends null |
| `RvalueReference.GetContainer` | rvalue_reference/main.cpp:157-161 | returns a newly allocated container owning a fresh 20-int buffer |
| `Locks.Mutex.constructor` | multithreading/main.cpp:254 | a newly constructed `std::mutex` member is free |
| `Locks.Mutex.Lock` | multithreading/main.cpp:260 | a free mutex becomes held |
| `Locks.Mutex.Unlock` | multithreading/main.cpp:265 | a held mutex becomes free |
| `Locks.LockGuard.constructor` | multithreading/main.cpp:312 | constructing the guard locks the free mutex it wraps |
| `Locks.LockGuard.Release` | multithreading/main.cpp:323-325 | the guard's destructor unlocks its mutex |
| `RaceConditions.Wallet.constructor` | multithreading/main.cpp:203 | a new wallet has balance 0 |
| `RaceConditions.Wallet.GetMoney` | multithreading/main.cpp:204 | returns the balance and changes nothing |
| `RaceConditions.Wallet.AddMoney` | multithreading/main.cpp:205-212 | the balance rises by exactly `money` unit steps when `money` is positive and is unchanged otherwise |
| `RaceConditions.SerialDeposits` | multithreading/main.cpp:215-230 | `k` serialised deposits of 1000 on a fresh wallet give `k * 1000` |
| `RaceConditions.TestMultithreadedWallet` | multithreading/main.cpp:232-244 | the 10 serialised deposits give the 10000 the test expects |
| `MutexWallets.Wallet.constructor` | multithreading/main.cpp:256 | a new wallet has balance 0 and a free mutex |
| `MutexWallets.Wallet.GetMoney` | multithreading/main.cpp:257 | returns the balance and changes nothing |
| `MutexWallets.Wallet.AddMoney` | multithreading/main.cpp:258-266 | entered and left with the mutex free; the balance rises by `money` when positive, else is unchanged |
| `MutexWallets.SerialDeposits` | multithreading/main.cpp:269-282 | `k` serialised deposits of 1000 leave the returned wallet with balance `k * 1000` and its mutex free |
| `MutexWallets.TestMultithreadedWallet` | multithreading/main.cpp:284-294 | the 5 deposits give the 5000 the test expects |
| `MutexWallets.Wallet2.constructor` | multithreading/main.cpp:308 | a new wallet has balance 0 and a free mutex |
| `MutexWallets.Wallet2.GetMoney` | multithreading/main.cpp:309 | returns the balance and changes nothing |
| `MutexWallets.Wallet2.AddMoney` | multithreading/main.cpp:310-326 | a guard holds the mutex over the loop and releases it on exit; the balance rises by `money` when positive, else is unchanged |
| `MutexWallets.SerialDeposits2` | multithreading/main.cpp:303-327 | `k` serialised deposits of 1000 through `Wallet2` leave the returned wallet with balance `k * 1000` and its mutex free |
| `EventHandling.Application.constructor` | multithreading/main.cpp:340-342 | the data-loaded flag starts false |
| `EventHandling.Application.LoadData` | multithreading/main.cpp:343-354 | the flag ends true, set under a guard that is released again |
| `EventHandling.Application2.constructor` | multithreading/main.cpp:408-410 | the data-loaded flag starts false |
| `EventHandling.Application2.LoadData` | multithreading/main.cpp:411-424 | the flag ends true, set under a guard that is released again |
| `EventHandling.Application2.IsDataLoaded` | multithreading/main.cpp:426-429 | reports the flag and changes nothing |
| `EventHandling.LoadOnceObserved` | multithreading/main.cpp:403-441 | the wait predicate is false before `loadData` and true after it and after any later call |
| `VariadicTemplates.Sum` | variadic_templates/main.cpp:7-18 | the template itself, over a non-empty pack with `+` as a parameter: `a0 + (a1 + (... + an))`; its properties are stated by the lemmas below |
| `VariadicTemplates.SumSingle` | variadic_templates/main.cpp:7-11 | the single-argument `sum(t)` returns `t` |
| `VariadicTemplates.SumExpands` | variadic_templates/main.cpp:14-18 | `sum(first, rest...)` is `first + sum(rest...)`, the rest in its original order |
| `VariadicTemplates.SumIsLeftFold` | variadic_templates/main.cpp:14-18 | for an associative `+` the right-nested expansion equals the left-to-right fold |
| `VariadicTemplates.SumAppend` | variadic_templates/main.cpp:14-18 | for an associative `+`, the sum of a concatenated pack is the sum of the first part plus the sum of the second |
| `VariadicTemplates.SumOfIntsIsSeqSum` | variadic_templates/main.cpp:14-18 | over a non-empty pack of ints, `sum` is the ordinary sum of the sequence |
| `VariadicTemplates.SumOfStringsJoinsInOrder` | variadic_templates/main.cpp:14-18 | with non-commutative concatenation as `+`, `sum` keeps argument order |
| `VariadicTemplates.SumMainExample` | variadic_templates/main.cpp:36 | `sum(1, 2, 3, 4)` is 10 |
| `Lambda.CaptureByReferencePass` | lambda/main.cpp:93-98 | every element is received in order and the array is not changed; the outer `mul` becomes 3 |
| `Lambda.CaptureByValuePass` | lambda/main.cpp:101-107 | each element is multiplied in place by the captured `mul`, provided no product overflows |
| `Lambda.CaptureNothingPass` | lambda/main.cpp:110-116 | every element is received in order and the array is not changed |
| `Lambda.ForEachPasses` | lambda/main.cpp:88-116 | on `{1, 2, 3, 4, 5}` the first pass sees the original, `mul` ends 3, the array ends `{3, 6, 9, 12, 15}` and the third pass sees that |
| `Lambda.MutableClosure.constructor` | lambda/main.cpp:54 | capturing by value copies the outer `msg` and `counter` |
| `Lambda.MutableClosure.Call` | lambda/main.cpp:54-67 | the lambda sees its copies as captured and then overwrites only them with "Temp" and 20 |
| `Lambda.CaptureLocalVariables` | lambda/main.cpp:49-74 | inside the lambda the copies go from "Hello"/10 to "Temp"/20, while the outer `msg` and `counter` stay "Hello" and 10 |

## Left out

- Threads, `join`/`detach`, `sleep_for`, condition-variable waiting and
  `notify_one`, `std::promise`/`std::future`, `std::async` and
  `packaged_task`: their point is concurrency and timing, which this model
  does not express.
- `Application::mainTask` and `Application2::mainTask`: both only wait,
  by polling or on the condition variable, for another thread to set the
  flag.
- RaceConditions.Wallet.AddMoney: states the effect of one call at a time
  only; the updates lost when several threads run the unguarded loop at
  once are not modelled.
- The deposit tests start their `addMoney` calls on parallel threads; the
  model runs them one after another (`SerialDeposits`).
- VariadicTemplates.Sum: the pack is a sequence of one type `T`. The source
  calls `sum<T>(rest...)`, so every later argument is converted to the first
  argument's type (`sum(1, 2.5)` is `1 + int(2.5)`); packs of mixed types and
  these conversions are not modelled.
- All `std::cout` output; `expand`/`printarg` in the variadic demo.
- The three concrete messages printed by `functionObjectsAndFunctors::test2`
  and the one printed by `functionPointers::test` are not stated as
  lemmas; `BuildWithLetterInc` and `BuildWithEncryptor` state the general
  form.
- VariadicTemplates.SumOfIntsIsSeqSum: treats the `int` sum as a
  mathematical integer; `int` overflow of the template's `+` is not
  modelled.
- `getContainer` and `test` in the rvalue demo leak their containers and a
  `std::vector<Container*>`; the vector is not modelled.
- A `new int[20]` buffer's initial contents are indeterminate; the model
  claims nothing about them.
- stop_or_terminate_thread/main.cpp, smart_pointer/main.cpp and
  std_array/main.cpp are not part of this model: the first is a wrapper over
  the standard library's promise and future, the other two only exercise
  standard-library types and print.
