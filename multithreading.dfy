/**
 * The sequential part of the multithreading demos: a mutex modelled by
 * whether it is held, three wallets whose `addMoney` counts up one unit at
 * a time, and the data-loaded flag of the event-handling applications.
 * Calls are taken one at a time (serialised); thread interleavings are not
 * modelled.
 */
module Locks {

  /** `std::mutex`, as the one fact a single thread can observe: whether it is held. */
  class Mutex {
    var held: bool

    constructor ()
      ensures !held
    {
      held := false;
    }

    /** `lock()`; locking a non-recursive mutex one already holds is undefined, so it must be free. */
    method Lock()
      requires !held
      modifies this
      ensures held
    {
      held := true;
    }

    /** `unlock()`; only the holder may unlock. */
    method Unlock()
      requires held
      modifies this
      ensures !held
    {
      held := false;
    }
  }

  /** `std::lock_guard<std::mutex>`: locks in its constructor, unlocks in its destructor. */
  class LockGuard {
    const mutex: Mutex

    constructor (m: Mutex)
      requires !m.held
      modifies m
      ensures mutex == m && m.held
    {
      mutex := m;
      new;
      m.Lock();
    }

    /** The destructor, run when the guard leaves its scope. */
    method Release()
      requires mutex.held
      modifies mutex
      ensures !mutex.held
    {
      mutex.Unlock();
    }
  }
}

/** `dataSharingAndRaceConditions`: the unsynchronised wallet. */
module RaceConditions {
  import opened CInt

  class Wallet {
    var money: Int

    /** `Wallet() : mMoney(0)`. */
    constructor ()
      ensures money == 0
    {
      money := 0;
    }

    /** `getMoney()`: reports the balance and changes nothing. */
    method GetMoney() returns (r: int)
      ensures r == money
    {
      r := money;
    }

    /**
     * `addMoney(money)`: `amount` unit increments; a non-positive amount
     * runs the loop zero times. The balance must not overflow `int`.
     */
    method AddMoney(amount: int)
      requires amount <= 0 || InInt(money + amount)
      modifies this
      ensures money == old(money) + (if amount > 0 then amount else 0)
    {
      var i := 0;
      while i < amount
        invariant 0 <= i <= (if amount > 0 then amount else 0)
        invariant money == old(money) + i
      {
        money := money + 1;
        i := i + 1;
      }
    }
  }

  /**
   * `testMultithreadedWallet` with its `calls` deposits of 1000 taken one
   * after another instead of on parallel threads; the source starts 10.
   */
  method SerialDeposits(calls: nat) returns (balance: int)
    requires calls * 1000 <= INT_MAX
    ensures balance == calls * 1000
  {
    var wallet := new Wallet();
    var t := 0;
    while t < calls
      invariant t <= calls
      invariant wallet.money == t * 1000
    {
      wallet.AddMoney(1000);
      t := t + 1;
    }
    balance := wallet.GetMoney();
  }

  /** The value `practicalExampleOfRaceCondition` expects: 10 deposits of 1000. */
  method TestMultithreadedWallet() returns (balance: int)
    ensures balance == 10000
  {
    balance := SerialDeposits(10);
  }
}

/** `usingMutexToFixRaceConditions`: wallets that hold a mutex around the counting loop. */
module MutexWallets {
  import opened CInt
  import opened Locks

  /** `Wallet`: locks and unlocks the mutex by hand. */
  class Wallet {
    var money: Int
    const mutex: Mutex

    /** `Wallet() : mMoney(0)`, with a fresh, free mutex. */
    constructor ()
      ensures money == 0 && fresh(mutex) && !mutex.held
    {
      money := 0;
      mutex := new Mutex();
    }

    /** `getMoney()`: reports the balance and changes nothing. */
    method GetMoney() returns (r: int)
      ensures r == money
    {
      r := money;
    }

    /**
     * `addMoney(money)`: locks, increments `amount` times, unlocks. It is
     * entered and left with the mutex free.
     */
    method AddMoney(amount: int)
      requires !mutex.held
      requires amount <= 0 || InInt(money + amount)
      modifies this, mutex
      ensures !mutex.held
      ensures money == old(money) + (if amount > 0 then amount else 0)
    {
      mutex.Lock();
      var i := 0;
      while i < amount
        invariant 0 <= i <= (if amount > 0 then amount else 0)
        invariant money == old(money) + i
        invariant mutex.held
      {
        money := money + 1;
        i := i + 1;
      }
      mutex.Unlock();
    }
  }

  /** `Wallet2`: the mutex is held by a `lock_guard` for the body of `addMoney`. */
  class Wallet2 {
    var money: Int
    const mutex: Mutex

    /** `Wallet2() : mMoney(0)`, with a fresh, free mutex. */
    constructor ()
      ensures money == 0 && fresh(mutex) && !mutex.held
    {
      money := 0;
      mutex := new Mutex();
    }

    /** `getMoney()`: reports the balance and changes nothing. */
    method GetMoney() returns (r: int)
      ensures r == money
    {
      r := money;
    }

    /**
     * `addMoney(money)`: a guard locks on entry, the loop increments
     * `amount` times, and the guard's destructor unlocks on exit.
     */
    method AddMoney(amount: int)
      requires !mutex.held
      requires amount <= 0 || InInt(money + amount)
      modifies this, mutex
      ensures !mutex.held
      ensures money == old(money) + (if amount > 0 then amount else 0)
    {
      var guard := new LockGuard(mutex);
      var i := 0;
      while i < amount
        invariant 0 <= i <= (if amount > 0 then amount else 0)
        invariant money == old(money) + i
        invariant guard.mutex == mutex && mutex.held
      {
        money := money + 1;
        i := i + 1;
      }
      guard.Release();
    }
  }

  /**
   * `testMultithreadedWallet` with its deposits of 1000 serialised, as the
   * mutex makes them; the source starts 5.
   */
  method SerialDeposits(calls: nat) returns (balance: int, wallet: Wallet)
    requires calls * 1000 <= INT_MAX
    ensures balance == calls * 1000 && wallet.money == balance
    ensures !wallet.mutex.held
  {
    wallet := new Wallet();
    var t := 0;
    while t < calls
      invariant t <= calls
      invariant wallet.money == t * 1000 && !wallet.mutex.held
    {
      wallet.AddMoney(1000);
      t := t + 1;
    }
    balance := wallet.GetMoney();
  }

  /** The value `test` expects on every round: 5 deposits of 1000. */
  method TestMultithreadedWallet() returns (balance: int)
    ensures balance == 5000
  {
    var wallet;
    balance, wallet := SerialDeposits(5);
  }

  /** The same serialised deposits through `Wallet2`. */
  method SerialDeposits2(calls: nat) returns (balance: int, wallet: Wallet2)
    requires calls * 1000 <= INT_MAX
    ensures balance == calls * 1000 && wallet.money == balance
    ensures !wallet.mutex.held
  {
    wallet := new Wallet2();
    var t := 0;
    while t < calls
      invariant t <= calls
      invariant wallet.money == t * 1000 && !wallet.mutex.held
    {
      wallet.AddMoney(1000);
      t := t + 1;
    }
    balance := wallet.GetMoney();
  }
}

/** `eventHandling`: the flag a loader thread sets once the data is in. */
module EventHandling {
  import opened Locks

  /** `Application`: option 1, a flag under a mutex that the main task polls. */
  class Application {
    var dataLoaded: bool
    const mutex: Mutex

    constructor ()
      ensures !dataLoaded && fresh(mutex) && !mutex.held
    {
      dataLoaded := false;
      mutex := new Mutex();
    }

    /** `loadData()`: sets the flag under a `lock_guard`; it never clears it. */
    method LoadData()
      requires !mutex.held
      modifies this, mutex
      ensures dataLoaded && !mutex.held
    {
      var guard := new LockGuard(mutex);
      dataLoaded := true;
      guard.Release();
    }
  }

  /** `Application2`: option 2, the same flag behind a condition variable. */
  class Application2 {
    var dataLoaded: bool
    const mutex: Mutex

    constructor ()
      ensures !dataLoaded && fresh(mutex) && !mutex.held
    {
      dataLoaded := false;
      mutex := new Mutex();
    }

    /** `loadData()`: sets the flag under a `lock_guard` (and then notifies). */
    method LoadData()
      requires !mutex.held
      modifies this, mutex
      ensures dataLoaded && !mutex.held
    {
      var guard := new LockGuard(mutex);
      dataLoaded := true;
      guard.Release();
    }

    /** `isDataLoaded()`: the wait predicate; reports the flag and changes nothing. */
    method IsDataLoaded() returns (r: bool)
      ensures r == dataLoaded
    {
      r := dataLoaded;
    }
  }

  /** Before `loadData` the predicate is false; after it, and after any later call, it is true. */
  method LoadOnceObserved() returns (before: bool, after: bool, again: bool)
    ensures !before && after && again
  {
    var app := new Application2();
    before := app.IsDataLoaded();
    app.LoadData();
    after := app.IsDataLoaded();
    app.LoadData();
    again := app.IsDataLoaded();
  }
}
