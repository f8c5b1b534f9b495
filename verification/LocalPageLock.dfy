/** The lock of one page on one node, as the object whose methods update it in place. */
module LocalPageLock {
  import opened PageLockTypes
  import opened PageOwnership

  /** The marks of an eviction and of an arrived grant are as they were. */
  predicate SameMarks(was: Local, now: Local) {
    now.evicting == was.evicting && now.evict == was.evict && now.success == was.success
  }

  class LocalLock {
    var lock: Word
    var mode: Mode
    var pending: bool
    var granting: bool
    var evicting: bool
    var released: bool
    var success: bool
    ghost var request: Request   // where the asking thread stands
    ghost var evict: Eviction    // where the evicting thread stands

    ghost function View(): Local
      reads this
    {
      Local(lock, mode, pending, granting, evicting, released, success, request, evict)
    }

    constructor ()
      ensures View() == FRESH && LocalOk(View())
    {
      lock, mode, pending, granting := Shared(0), NONE, false, false;
      evicting, released, success := false, true, false;
      request, evict := Idle, NoEvict;
    }

    /** One try at the shared latch: back off, use the page, or first ask the manager. */
    method TryLockShared() returns (taken: bool, remote: bool)
      requires LocalOk(View())
      modifies this
      ensures LocalOk(View())
      ensures taken <==> !old(granting) && !old(pending) && !old(evicting) && old(lock) != Exclusive
      ensures taken ==> old(lock).Shared? && lock == Shared(old(lock).n + 1)
      ensures remote <==> taken && old(mode) == NONE
      ensures granting == (old(granting) || remote) && (!taken ==> lock == old(lock))
      ensures mode == old(mode) && pending == old(pending) && released == old(released)
      ensures SameMarks(old(View()), View())
      ensures taken <==> old(CanLatchShared(View()))
      ensures View() == if taken then LatchShared(old(View())) else old(View())
    {
      if granting || pending || evicting { return false, false; }
      if mode == EXCLUSIVE {
        if lock == Exclusive { return false, false; }
        lock := Shared(lock.n + 1);
        return true, false;
      } else if mode == SHARED {
        assert lock != Exclusive;
        lock := Shared(lock.n + 1);
        return true, false;
      } else {
        lock := Shared(lock.n + 1);
        granting := true;
        request := Sending;
        return true, true;
      }
    }

    method TryLockExclusive() returns (taken: bool, remote: bool)
      requires LocalOk(View())
      modifies this
      ensures LocalOk(View())
      ensures taken <==> !old(granting) && !old(pending) && !old(evicting) && old(lock) == Shared(0)
      ensures lock == if taken then Exclusive else old(lock)
      ensures remote <==> taken && old(mode) != EXCLUSIVE
      ensures granting == (old(granting) || remote)
      ensures mode == old(mode) && pending == old(pending) && released == old(released)
      ensures SameMarks(old(View()), View())
      ensures taken <==> old(CanLatchExclusive(View()))
      ensures View() == if taken then LatchExclusive(old(View())) else old(View())
    {
      if granting || pending || evicting { return false, false; }
      if lock != Shared(0) { return false, false; }
      lock := Exclusive;
      if mode == EXCLUSIVE { return true, false; }
      granting := true;
      request := Sending;
      return true, true;
    }

    /** The manager's grant has arrived and the page is here. */
    method LockRemoteOK()
      requires LocalOk(View()) && request == Won
      modifies this
      ensures LocalOk(View()) && View() == Own(old(View())) && InUse(View())
      ensures lock == old(lock) && mode == (if lock == Exclusive then EXCLUSIVE else SHARED) && !granting && !released
      ensures SameMarks(old(View()), View()) && pending == old(pending)
    {
      assert granting;
      mode := if lock == Exclusive then EXCLUSIVE else SHARED;
      granting := false;
      released := false;
      request := Idle;
    }

    method NotifyLockSuccess(x: bool)
      requires LocalOk(View()) && request == Waiting && x == (lock == Exclusive)
      modifies this`success
      ensures LocalOk(View()) && View() == old(View()).(success := true)
    {
      assert granting;
      assert if x then lock == Exclusive else lock.Shared? && lock.n > 0;
      success := true;
    }

    /** The last part of a release: the latch drops, and with it the page if somebody waits for it. */
    method Release() returns (giveUp: bool)
      requires LocalOk(View()) && InUse(View())
      modifies this
      ensures LocalOk(View()) && (View(), giveUp) == Unlatch(old(View()))
      ensures giveUp <==> old(pending) && (old(lock) == Exclusive || old(lock) == Shared(1))
      ensures lock == if old(lock) == Exclusive then Shared(0) else Shared(old(lock).n - 1)
      ensures giveUp ==> !pending && mode == NONE && released
      ensures !giveUp ==> pending == old(pending) && mode == old(mode) && released == old(released)
      ensures SameMarks(old(View()), View()) && granting == old(granting)
    {
      if lock == Exclusive {
        assert mode == EXCLUSIVE && !granting;
        giveUp := pending;
        lock := Shared(0);
      } else {
        assert lock.n > 0 && !granting;
        giveUp := lock.n == 1 && pending;
        lock := Shared(lock.n - 1);
      }
      if giveUp {
        released := true;
        pending := false;
        mode := NONE;
      }
    }

    /** The manager wants the page back. */
    method Pending(xpending: bool) returns (giveUp: bool)
      requires LocalOk(View()) && !pending && evict != Agreed
      requires !granting ==> mode != NONE
      modifies this
      ensures LocalOk(View()) && (View(), giveUp) == OnPending(old(View()), xpending)
      ensures giveUp <==> if old(granting) then old(mode) == SHARED && !xpending else old(lock) == Shared(0)
      ensures giveUp ==> mode == NONE && pending == old(pending) && released == (old(released) || !old(granting))
      ensures !giveUp ==> pending && mode == old(mode) && released == old(released)
      ensures SameMarks(old(View()), View()) && lock == old(lock) && granting == old(granting)
    {
      assert !pending;
      if !granting && mode != NONE {
        if lock == Shared(0) {
          released := true;
          mode := NONE;
          return true;
        }
        pending := true;
        return false;
      } else if granting && mode == SHARED {
        assert lock == Exclusive;
        if xpending {
          pending := true;
          return false;
        }
        mode := NONE;
        return true;
      } else {
        assert granting && mode == NONE;
        pending := true;
        return false;
      }
    }

    /** Reserves the page for eviction; from now on nobody here can latch it. */
    method TryBeginEvict() returns (begun: bool)
      requires LocalOk(View())
      modifies this
      ensures LocalOk(View())
      ensures begun <==> old(!evicting && !released && lock == Shared(0) && !granting && !pending)
      ensures View() == if begun then old(View()).(evicting := true, evict := Begun) else old(View())
      ensures begun ==> !CanLatchShared(View()) && !CanLatchExclusive(View())
    {
      if evicting || released { return false; }
      if lock == Shared(0) && !granting && !pending {
        evicting := true;
        evict := Begun;
        return true;
      }
      return false;
    }

    /** The manager agreed to the eviction: forget the ownership and end it. */
    method FinishEvict()
      requires LocalOk(View()) && evict == Agreed
      modifies this
      ensures LocalOk(View())
      ensures View() == old(View()).(mode := NONE, released := true, evicting := false, evict := NoEvict)
    {
      assert lock == Shared(0) && !granting && !pending && evicting && mode != NONE;
      mode := NONE;
      released := true;
      evicting := false;
      evict := NoEvict;
    }
  }
}
