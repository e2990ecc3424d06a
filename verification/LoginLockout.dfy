/** The login lockout: how many wrong passwords of one account can be looked at in a window of time. */
module LoginLockout {
  import opened Wrappers

  type Time = int

  /** max_failed_logins and the lock time. */
  datatype Policy = Policy(maxFailed: int, lockTime: nat)

  /** The lockout columns of a user. */
  datatype Account = Account(failed: nat, lockedUntil: Option<Time>)

  datatype Outcome = Locked | WrongPassword | LoggedIn

  /** A login by somebody, or a password set through a reset, an invitation or a change. */
  datatype Attempt = Login(now: Time, accepted: bool) | PasswordSet(now: Time)

  /** A limit of nought locks on the first failure, like a limit of one. */
  function Limit(p: Policy): nat {
    if p.maxFailed < 1 then 1 else p.maxFailed
  }

  predicate LockedAt(a: Account, now: Time) {
    a.lockedUntil.Some? && a.lockedUntil.value > now
  }

  function Verdict(a: Account, attempt: Attempt): Outcome
    requires attempt.Login?
  {
    if LockedAt(a, attempt.now) then Locked else if attempt.accepted then LoggedIn else WrongPassword
  }

  function Failed(p: Policy, a: Account, now: Time): Account {
    if a.failed + 1 >= p.maxFailed then Account(0, Some(now + p.lockTime)) else a.(failed := a.failed + 1)
  }

  function After(p: Policy, a: Account, attempt: Attempt): Account {
    if attempt.PasswordSet? then Account(0, None)
    else
      match Verdict(a, attempt)
      case Locked => a
      case WrongPassword => Failed(p, a, attempt.now)
      case LoggedIn => Account(0, None)
  }

  /** The user row, with the login and password services that change it. */
  class User {
    var failed: nat
    var lockedUntil: Option<Time>
    var active: bool

    function View(): Account
      reads this
    {
      Account(failed, lockedUntil)
    }

    constructor ()
      ensures View() == Account(0, None) && active
    {
      failed, lockedUntil, active := 0, None, true;
    }

    /** matches says that the given password is the stored one; an inactive user's never does. */
    method Login(p: Policy, matches: bool, now: Time) returns (outcome: Outcome)
      modifies `failed, `lockedUntil
      ensures outcome == Verdict(old(View()), Attempt.Login(now, active && matches))
      ensures View() == After(p, old(View()), Attempt.Login(now, active && matches))
    {
      if lockedUntil.Some? && lockedUntil.value > now { return Locked; }
      if !active || !matches {
        failed := failed + 1;
        if failed >= p.maxFailed {
          lockedUntil := Some(now + p.lockTime);
          failed := 0;
        }
        return WrongPassword;
      }
      failed := 0;
      lockedUntil := None;
      return LoggedIn;
    }

    method SetPassword(p: Policy, now: Time)
      modifies `failed, `lockedUntil
      ensures View() == After(p, old(View()), PasswordSet(now))
    {
      failed := 0;
      lockedUntil := None;
    }
  }

  /**
   * While the lock lasts every try is turned away and counts for nothing. Otherwise the right password logs in and clears
   * the record, and a wrong one counts, or locks when it is the last allowed. A new password clears the record.
   */
  lemma AttemptOutcome(p: Policy, a: Account, attempt: Attempt)
    ensures
      match attempt {
        case PasswordSet(_) => After(p, a, attempt) == Account(0, None)
        case Login(now, accepted) =>
          if a.lockedUntil.Some? && now < a.lockedUntil.value then
            Verdict(a, attempt) == Locked && After(p, a, attempt) == a
          else if accepted then
            Verdict(a, attempt) == LoggedIn && After(p, a, attempt) == Account(0, None)
          else
            && Verdict(a, attempt) == WrongPassword
            && After(p, a, attempt) == if a.failed + 1 >= p.maxFailed then Account(0, Some(now + p.lockTime))
                                       else Account(a.failed + 1, a.lockedUntil)
      }
  {
  }

  // --- runs ---

  function AfterAll(p: Policy, a: Account, attempts: seq<Attempt>): Account
    decreases |attempts|
  {
    if attempts == [] then a else AfterAll(p, After(p, a, attempts[0]), attempts[1..])
  }

  /** The attempts whose password was compared and found wrong. */
  function WrongOnes(p: Policy, a: Account, attempts: seq<Attempt>): nat
    decreases |attempts|
  {
    if attempts == [] then 0
    else
      (if attempts[0].Login? && Verdict(a, attempts[0]) == WrongPassword then 1 else 0)
      + WrongOnes(p, After(p, a, attempts[0]), attempts[1..])
  }

  /** No attempt logs in, and no password is set. */
  predicate NoneGetsIn(p: Policy, a: Account, attempts: seq<Attempt>)
    decreases |attempts|
  {
    attempts == []
    || (attempts[0].Login? && Verdict(a, attempts[0]) != LoggedIn
        && NoneGetsIn(p, After(p, a, attempts[0]), attempts[1..]))
  }

  /** The attempts come in order of time, none before from and none after to. */
  ghost predicate Within(attempts: seq<Attempt>, from: Time, to: Time) {
    && (forall i :: 0 <= i < |attempts| ==> from <= attempts[i].now <= to)
    && (forall i, j :: 0 <= i < j < |attempts| ==> attempts[i].now <= attempts[j].now)
  }

  lemma {:induction false} CountStaysBelowLimit(p: Policy, a: Account, attempts: seq<Attempt>)
    requires a.failed < Limit(p)
    ensures AfterAll(p, a, attempts).failed < Limit(p)
    decreases |attempts|
  {
    if attempts != [] { CountStaysBelowLimit(p, After(p, a, attempts[0]), attempts[1..]); }
  }

  // --- the bound ---

  /** From when on a password is compared again, and for how long then. */
  function TimeLeft(a: Account, from: Time, to: Time): int {
    if LockedAt(a, from) then to - a.lockedUntil.value else to - from
  }

  /** What the account still allows: the tries left before the lock, and a full set for every lock that can end in time. */
  function Allowance(p: Policy, a: Account, left: int): int
    requires p.lockTime > 0
  {
    if left < 0 then 0 else Limit(p) - a.failed + Limit(p) * (left / p.lockTime)
  }

  lemma AllowanceShrinks(p: Policy, less: int, more: int)
    requires p.lockTime > 0 && 0 <= less <= more
    ensures Limit(p) * (less / p.lockTime) <= Limit(p) * (more / p.lockTime)
  {
    QuotientGrows(less, more, p.lockTime);
    ProductGrows(Limit(p), less / p.lockTime, more / p.lockTime);
  }

  lemma QuotientGrows(less: nat, more: nat, d: nat)
    requires d > 0 && less <= more
    ensures less / d <= more / d
  {
    assert less == d * (less / d) + less % d && more == d * (more / d) + more % d;
    if less / d >= more / d + 1 { ProductGrows(d, more / d + 1, less / d); }
  }

  lemma ProductGrows(a: nat, b: int, c: int)
    requires b <= c
    ensures a * b <= a * c
  {
    assert a * (c - b) >= 0;
  }

  lemma QuotientIsUnique(n: nat, d: nat, q: int, r: nat)
    requires d > 0 && n == d * q + r && r < d
    ensures n / d == q
  {
    var k := n / d;
    assert n == d * k + n % d;
    assert d * (q - k) == d * q - d * k && d * (k - q) == d * k - d * q;
    if q >= k + 1 { ProductGrows(d, 1, q - k); }
    if k >= q + 1 { ProductGrows(d, 1, k - q); }
  }

  lemma QuotientOfRest(left: nat, d: nat)
    requires 0 < d <= left
    ensures (left - d) / d == left / d - 1
  {
    assert left == d * (left / d) + left % d;
    assert d * (left / d - 1) == d * (left / d) - d;
    QuotientIsUnique(left - d, d, left / d - 1, left % d);
  }

  /** A wrong try uses up one of the allowance, a lock leaves only what fits behind it. */
  lemma TryUsesAllowance(p: Policy, a: Account, now: Time, from: Time, to: Time)
    requires p.lockTime > 0 && a.failed < Limit(p) && from <= now <= to && !LockedAt(a, now)
    ensures
      var b := Failed(p, a, now);
      b.failed < Limit(p) && 1 + Allowance(p, b, TimeLeft(b, now, to)) <= Allowance(p, a, TimeLeft(a, from, to))
  {
    var left := to - now;
    assert left <= TimeLeft(a, from, to);
    WaitingKeepsAllowance(p, a, from, now, to);
    assert Allowance(p, a, left) == Limit(p) - a.failed + Limit(p) * (left / p.lockTime);
    if a.failed + 1 >= p.maxFailed {
      LockUsesAllowance(p, left);
    }
  }

  lemma LockUsesAllowance(p: Policy, left: nat)
    requires p.lockTime > 0
    ensures Allowance(p, Account(0, None), left - p.lockTime) <= Limit(p) * (left / p.lockTime)
  {
    if left >= p.lockTime {
      QuotientOfRest(left, p.lockTime);
      assert Limit(p) * (left / p.lockTime - 1) == Limit(p) * (left / p.lockTime) - Limit(p);
    } else {
      ProductGrows(Limit(p), 0, left / p.lockTime);
    }
  }

  lemma WaitingKeepsAllowance(p: Policy, a: Account, from: Time, now: Time, to: Time)
    requires p.lockTime > 0 && a.failed < Limit(p) && from <= now <= to
    ensures Allowance(p, a, TimeLeft(a, now, to)) <= Allowance(p, a, TimeLeft(a, from, to))
  {
    if TimeLeft(a, now, to) >= 0 { AllowanceShrinks(p, TimeLeft(a, now, to), TimeLeft(a, from, to)); }
    if TimeLeft(a, from, to) >= 0 { ProductGrows(Limit(p), 0, TimeLeft(a, from, to) / p.lockTime); }
  }

  lemma {:induction false} AllowanceBounds(p: Policy, a: Account, attempts: seq<Attempt>, from: Time, to: Time)
    requires p.lockTime > 0 && a.failed < Limit(p) && NoneGetsIn(p, a, attempts) && Within(attempts, from, to)
    ensures WrongOnes(p, a, attempts) <= if attempts == [] then 0 else Allowance(p, a, TimeLeft(a, from, to))
    decreases |attempts|
  {
    if attempts != [] {
      var now := attempts[0].now;
      var b := After(p, a, attempts[0]);
      assert Within(attempts[1..], now, to);
      if Verdict(a, attempts[0]) == WrongPassword {
        TryUsesAllowance(p, a, now, from, to);
      } else {
        WaitingKeepsAllowance(p, a, from, now, to);
      }
      AllowanceBounds(p, b, attempts[1..], now, to);
      AllowanceIsNatural(p, b, TimeLeft(b, now, to));
    }
  }

  lemma AllowanceIsNatural(p: Policy, a: Account, left: int)
    requires p.lockTime > 0 && a.failed < Limit(p)
    ensures Allowance(p, a, left) >= 0
  {
    if left >= 0 { ProductGrows(Limit(p), 0, left / p.lockTime); }
  }

  /**
   * Take any run of an account and any stretch of it without a login or a password set: in a window of the given
   * length no more than limit * (window / lock time + 1) wrong passwords are compared.
   */
  lemma LockoutBound(p: Policy, earlier: seq<Attempt>, attempts: seq<Attempt>, from: Time, window: nat)
    requires p.lockTime > 0
    requires
      var a := AfterAll(p, Account(0, None), earlier);
      NoneGetsIn(p, a, attempts) && Within(attempts, from, from + window)
    ensures WrongOnes(p, AfterAll(p, Account(0, None), earlier), attempts) <= Limit(p) * (window / p.lockTime + 1)
  {
    var a := AfterAll(p, Account(0, None), earlier);
    CountStaysBelowLimit(p, Account(0, None), earlier);
    AllowanceBounds(p, a, attempts, from, from + window);
    var left := TimeLeft(a, from, from + window);
    if left >= 0 { AllowanceShrinks(p, left, window); }
    ProductGrows(Limit(p), 0, window / p.lockTime);
    assert Limit(p) * (window / p.lockTime + 1) == Limit(p) * (window / p.lockTime) + Limit(p);
  }

  // --- the bound is reached ---

  function Wrong(now: Time, n: nat): seq<Attempt> {
    seq(n, _ => Login(now, false))
  }

  /** A full set of wrong tries at once, then again whenever the lock ends. */
  function Bursts(p: Policy, now: Time, n: nat): seq<Attempt>
    decreases n
  {
    if n == 0 then [] else Wrong(now, Limit(p)) + Bursts(p, now + p.lockTime, n - 1)
  }

  lemma {:induction false} WrongThenMore(p: Policy, a: Account, now: Time, n: nat, rest: seq<Attempt>)
    requires !LockedAt(a, now) && a.failed + n <= Limit(p) && a.failed < Limit(p)
    ensures
      var b := if n == 0 then a else if a.failed + n == Limit(p) then Account(0, Some(now + p.lockTime))
               else a.(failed := a.failed + n);
      && WrongOnes(p, a, Wrong(now, n) + rest) == n + WrongOnes(p, b, rest)
      && (NoneGetsIn(p, b, rest) ==> NoneGetsIn(p, a, Wrong(now, n) + rest))
    decreases n
  {
    var all := Wrong(now, n) + rest;
    if n == 0 {
      assert all == rest;
    } else {
      assert all[0] == Login(now, false) && all[1..] == Wrong(now, n - 1) + rest;
      if n > 1 {
        WrongThenMore(p, After(p, a, all[0]), now, n - 1, rest);
      } else {
        assert all[1..] == rest;
      }
    }
  }

  lemma {:induction false} BurstsFit(p: Policy, now: Time, n: nat)
    requires n > 0
    ensures Within(Bursts(p, now, n), now, now + p.lockTime * (n - 1))
    decreases n
  {
    var first := Wrong(now, Limit(p));
    if n == 1 {
      assert Bursts(p, now, 1) == first;
    } else {
      var rest := Bursts(p, now + p.lockTime, n - 1);
      BurstsFit(p, now + p.lockTime, n - 1);
      assert p.lockTime * (n - 1) == p.lockTime + p.lockTime * (n - 2);
      ProductGrows(p.lockTime, 0, n - 2);
      var all := first + rest;
      forall i | 0 <= i < |all| ensures now <= all[i].now <= now + p.lockTime * (n - 1) {
        if i >= |first| { assert all[i] == rest[i - |first|]; }
      }
    }
  }

  /** With n sets of tries in a window of n - 1 lock times, every single one is compared: the bound is exact. */
  lemma {:induction false} BoundIsReached(p: Policy, a: Account, now: Time, n: nat)
    requires p.lockTime > 0 && a.failed == 0 && !LockedAt(a, now)
    ensures WrongOnes(p, a, Bursts(p, now, n)) == Limit(p) * n && NoneGetsIn(p, a, Bursts(p, now, n))
    decreases n
  {
    if n > 0 {
      var rest := Bursts(p, now + p.lockTime, n - 1);
      WrongThenMore(p, a, now, Limit(p), rest);
      BoundIsReached(p, Account(0, Some(now + p.lockTime)), now + p.lockTime, n - 1);
      assert Limit(p) * n == Limit(p) + Limit(p) * (n - 1);
    }
  }

  /** Without a lock time there is no bound at all. */
  lemma {:induction false} NoBoundWithoutLockTime(p: Policy, a: Account, now: Time, n: nat)
    requires p.lockTime == 0 && !LockedAt(a, now)
    ensures WrongOnes(p, a, Wrong(now, n)) == n
    decreases n
  {
    if n > 0 {
      assert Wrong(now, n)[1..] == Wrong(now, n - 1);
      NoBoundWithoutLockTime(p, Failed(p, a, now), now, n - 1);
    }
  }

  /** From a clean record fewer wrong passwords than the limit lock nobody out: the right one still logs in. */
  lemma FewMistakesAreForgiven(p: Policy, attempts: seq<Attempt>, now: Time)
    requires |attempts| < Limit(p) && forall i :: 0 <= i < |attempts| ==> attempts[i].Login? && !attempts[i].accepted
    ensures Verdict(AfterAll(p, Account(0, None), attempts), Login(now, true)) == LoggedIn
  {
    MistakesCount(p, Account(0, None), attempts);
  }

  lemma {:induction false} MistakesCount(p: Policy, a: Account, attempts: seq<Attempt>)
    requires a.failed + |attempts| < Limit(p) && a.lockedUntil.None?
    requires forall i :: 0 <= i < |attempts| ==> attempts[i].Login? && !attempts[i].accepted
    ensures AfterAll(p, a, attempts) == Account(a.failed + |attempts|, None)
    decreases |attempts|
  {
    if attempts != [] { MistakesCount(p, After(p, a, attempts[0]), attempts[1..]); }
  }

  /** As many as the limit lock everybody out for the lock time, and for no longer. */
  lemma LockIsForItsTime(p: Policy, attempts: seq<Attempt>, last: Time, now: Time, accepted: bool)
    requires |attempts| + 1 == Limit(p) && forall i :: 0 <= i < |attempts| ==> attempts[i].Login? && !attempts[i].accepted
    ensures
      var a := After(p, AfterAll(p, Account(0, None), attempts), Login(last, false));
      Verdict(a, Login(now, accepted)) == Locked <==> now < last + p.lockTime
  {
    MistakesCount(p, Account(0, None), attempts);
  }
}
