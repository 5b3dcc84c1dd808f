/** The notification component. Its props are a message, a kind and an
    `onClose` callback; it keeps one mutable cell, `timerRef.current`, that
    holds the handle of the auto-close timer. The browser's timers are
    modelled by a logical clock, a table of pending timers keyed by handle
    and a log of every `onClose` call. */
module AlertComponent {
  import opened JsRuntime

  /** Milliseconds before a non-error notice closes itself. */
  const AutoCloseDelay: nat := 4000
  /** The one kind that never closes itself. */
  const ErrorKind := "error"

  /** A `setTimeout` handle. Browsers hand out positive integers, so a
      handle stored in `timerRef.current` is always truthy. */
  type TimerId = i: int | i >= 1 witness 1

  /** The identity of an `onClose` function value; two renders pass "the same"
      callback exactly when their identities are equal, as `Object.is` decides
      for the effect's dependency list. */
  type Callback = nat

  /** A pending timer: when it is due and which callback it will call. */
  datatype Timer = Timer(deadline: nat, callback: Callback)

  /** `alertStyles[type]`: the four known kinds have a class, any other kind
      has none. */
  function StyleFor(kind: string): (c: Option<string>)
    ensures c.Some? <==> kind == "success" || kind == "error" || kind == "warning" || kind == "info"
    ensures c.Some? ==> c.value == "alert-" + kind
  {
    if kind == "success" then Some("alert-success")
    else if kind == "error" then Some("alert-error")
    else if kind == "warning" then Some("alert-warning")
    else if kind == "info" then Some("alert-info")
    else None
  }

  /** The class attribute of the notice. An unknown kind does not crash: the
      template literal prints the missing style as "undefined". */
  function ClassName(kind: string): (c: string)
    ensures StyleFor(kind).Some? ==> c == "alert alert-" + kind + " show"
    ensures StyleFor(kind).None? ==> c == "alert undefined show"
  {
    "alert " + Stringify(StyleFor(kind)) + " show"
  }

  /** Whether a re-render re-runs the effect: its dependency list is
      `[onClose, type]`, so only a new kind or a new callback counts; a new
      message alone does not. */
  predicate DepsChanged(oldKind: string, oldOnClose: Callback, newKind: string, newOnClose: Callback) {
    oldKind != newKind || oldOnClose != newOnClose
  }

  class Alert {
    var message: string
    var kind: string
    var onClose: Callback
    var mounted: bool
    /** `timerRef.current`: None is the initial `null`. It is never reset, so
        after a clear it may hold the handle of a timer that is gone. */
    var timerRef: Option<TimerId>

    /** The logical clock, in milliseconds. */
    var now: nat
    /** Timers scheduled and neither cleared nor fired yet. */
    var pending: map<TimerId, Timer>
    /** The handle the next `setTimeout` returns; handles are never reused. */
    var nextId: TimerId
    /** Every call of `onClose`, by the timer or by the close button, in order. */
    var closeCalls: seq<Callback>

    /** At most one timer is live, it is the one `timerRef` names, it is due
        within the auto-close delay and calls the current `onClose`, and it
        exists only while a non-error notice is mounted. */
    ghost predicate Valid()
      reads this
    {
      && (timerRef.Some? ==> timerRef.value < nextId)
      && (forall h :: h in pending ==> timerRef == Some(h))
      && (forall h :: h in pending ==> now < pending[h].deadline <= now + AutoCloseDelay)
      && (forall h :: h in pending ==> pending[h].callback == onClose)
      && (pending != map[] ==> mounted && kind != ErrorKind)
    }

    /** The state the effect body leaves: one timer, due after the delay and
        calling `onClose`, for a non-error kind; none for an error. */
    ghost predicate Armed()
      reads this
    {
      if kind != ErrorKind then
        timerRef.Some? && pending == map[timerRef.value := Timer(now + AutoCloseDelay, onClose)]
      else
        pending == map[]
    }

    /** Everything the component schedules goes through `timerRef`, so at
        most one close timer is ever pending. */
    lemma AtMostOneTimer()
      requires Valid()
      ensures |pending| <= 1
      ensures pending != map[] ==> timerRef.Some? && pending.Keys == {timerRef.value}
    {
      if pending != map[] {
        var h :| h in pending;
        assert pending.Keys == {timerRef.value};
      }
    }

    /** Mounting: the first render followed by the first run of the effect. */
    constructor (message: string, kind: string, onClose: Callback, now: nat)
      ensures Valid() && Armed()
      ensures this.message == message && this.kind == kind && this.onClose == onClose
      ensures this.now == now && mounted && closeCalls == []
    {
      this.message, this.kind, this.onClose := message, kind, onClose;
      this.now := now;
      mounted := true;
      timerRef := None;
      pending := map[];
      nextId := 1;
      closeCalls := [];
      new;
      RunEffect();
    }

    /** `setTimeout(callback, delay)`. */
    method SetTimeout(callback: Callback, delay: nat) returns (id: TimerId)
      modifies this`pending, this`nextId
      ensures id == old(nextId) && nextId == old(nextId) + 1
      ensures pending == old(pending)[id := Timer(now + delay, callback)]
    {
      id := nextId;
      nextId := nextId + 1;
      pending := pending[id := Timer(now + delay, callback)];
    }

    /** `if (timerRef.current) clearTimeout(timerRef.current)`: the guard the
        effect body, its cleanup and `handleClose` share. Clearing a handle
        that already fired or was cleared does nothing. */
    method ClearPendingTimer()
      modifies this`pending
      ensures timerRef.Some? ==> pending == old(pending) - {timerRef.value}
      ensures timerRef.None? ==> pending == old(pending)
    {
      if timerRef.Some? {
        pending := pending - {timerRef.value};
      }
    }

    /** The effect body: clear the previous timer, then schedule the
        auto-close unless the kind is `error`. */
    method RunEffect()
      requires forall h :: h in pending ==> timerRef == Some(h)
      requires timerRef.Some? ==> timerRef.value < nextId
      modifies this`pending, this`timerRef, this`nextId
      ensures Armed()
      ensures timerRef.Some? ==> timerRef.value < nextId
      ensures kind != ErrorKind ==> timerRef == Some(old(nextId)) && nextId == old(nextId) + 1
      ensures kind == ErrorKind ==> timerRef == old(timerRef) && nextId == old(nextId)
    {
      ClearPendingTimer();
      if kind != ErrorKind {
        var id := SetTimeout(onClose, AutoCloseDelay);
        timerRef := Some(id);
      }
    }

    /** A re-render with new props. When the kind or the callback changed,
        React runs the previous effect's cleanup and then the effect again;
        a new message alone leaves the running timer as it is. */
    method Render(newMessage: string, newKind: string, newOnClose: Callback)
      requires Valid() && mounted
      modifies this
      ensures Valid() && mounted
      ensures message == newMessage && kind == newKind && onClose == newOnClose
      ensures now == old(now) && closeCalls == old(closeCalls)
      ensures DepsChanged(old(kind), old(onClose), newKind, newOnClose) ==>
        Armed() && forall h :: h in old(pending) ==> h !in pending
      ensures DepsChanged(old(kind), old(onClose), newKind, newOnClose) && newKind != ErrorKind ==>
        timerRef == Some(old(nextId)) && nextId == old(nextId) + 1
      ensures DepsChanged(old(kind), old(onClose), newKind, newOnClose) && newKind == ErrorKind ==>
        timerRef == old(timerRef) && nextId == old(nextId)
      ensures !DepsChanged(old(kind), old(onClose), newKind, newOnClose) ==>
        pending == old(pending) && timerRef == old(timerRef) && nextId == old(nextId)
      ensures forall h :: h in pending ==> h in old(pending) || old(nextId) <= h
    {
      var restart := DepsChanged(kind, onClose, newKind, newOnClose);
      message, kind, onClose := newMessage, newKind, newOnClose;
      if restart {
        ClearPendingTimer();  // cleanup of the previous run
        RunEffect();
      }
    }

    /** Unmounting runs the cleanup: no timer outlives the component. */
    method Unmount()
      requires Valid() && mounted
      modifies this`mounted, this`pending
      ensures Valid() && !mounted && pending == map[]
    {
      ClearPendingTimer();
      mounted := false;
    }

    /** `handleClose`, the close button: clear the timer, then call `onClose`
        once. */
    method HandleClose()
      requires Valid() && mounted
      modifies this`pending, this`closeCalls
      ensures Valid() && pending == map[]
      ensures closeCalls == old(closeCalls) + [onClose]
    {
      ClearPendingTimer();
      closeCalls := closeCalls + [onClose];
    }

    /** The clock advances by `dt` and every timer due by then fires, calling
        the callback it captured. A notice is never left open longer than the
        auto-close delay. */
    method Tick(dt: nat) returns (fired: bool)
      requires Valid()
      modifies this`now, this`pending, this`closeCalls
      ensures Valid()
      ensures now == old(now) + dt
      ensures fired <==> exists h :: h in old(pending) && old(pending)[h].deadline <= now
      ensures pending == map h | h in old(pending) && old(pending)[h].deadline > now :: old(pending)[h]
      ensures closeCalls == old(closeCalls) + (if fired then [onClose] else [])
      ensures dt >= AutoCloseDelay ==> pending == map[]
    {
      now := now + dt;
      fired := false;
      if timerRef.Some? && timerRef.value in pending && pending[timerRef.value].deadline <= now {
        var h := timerRef.value;
        closeCalls := closeCalls + [pending[h].callback];
        pending := pending - {h};
        fired := true;
      }
    }
  }

  /** A non-error notice left alone is still open one millisecond before the
      delay and closed, by exactly one `onClose` call, when it runs out. */
  method SuccessClosesAfterDelay(onClose: Callback, start: nat) returns (early: seq<Callback>, late: seq<Callback>)
    ensures early == [] && late == [onClose]
  {
    var a := new Alert("Saved", "success", onClose, start);
    var _ := a.Tick(AutoCloseDelay - 1);
    early := a.closeCalls;
    var _ := a.Tick(1);
    late := a.closeCalls;
  }

  /** An error notice never closes by itself, however long it stays. */
  method ErrorStaysOpen(onClose: Callback, wait: nat) returns (calls: seq<Callback>)
    ensures calls == []
  {
    var a := new Alert("Invalid credentials", ErrorKind, onClose, 0);
    var _ := a.Tick(wait);
    calls := a.closeCalls;
  }

  /** Closing by hand calls `onClose` once; the cancelled timer's deadline
      passing later adds nothing. */
  method ManualCloseThenExpiry(onClose: Callback, kind: string, before: nat, after: nat)
    returns (calls: seq<Callback>)
    requires before < AutoCloseDelay
    ensures calls == [onClose]
  {
    var a := new Alert("Saved", kind, onClose, 0);
    var _ := a.Tick(before);
    a.HandleClose();
    var _ := a.Tick(after);
    calls := a.closeCalls;
  }

  /** After unmounting, no `onClose` ever runs. */
  method UnmountSilences(onClose: Callback, kind: string, before: nat, after: nat)
    returns (calls: seq<Callback>)
    requires before < AutoCloseDelay
    ensures calls == []
  {
    var a := new Alert("Saved", kind, onClose, 0);
    var _ := a.Tick(before);
    a.Unmount();
    var _ := a.Tick(after);
    calls := a.closeCalls;
  }

  /** A new kind restarts the delay: the first timer's deadline passes with
      no call, and the new one fires a full delay after the change. */
  method KindChangeRestartsTimer(onClose: Callback, elapsed: nat)
    returns (atOldDeadline: seq<Callback>, atNewDeadline: seq<Callback>)
    requires 0 < elapsed < AutoCloseDelay
    ensures atOldDeadline == [] && atNewDeadline == [onClose]
  {
    var a := new Alert("Saved", "success", onClose, 0);
    var _ := a.Tick(elapsed);
    a.Render("Check the form", "warning", onClose);
    var _ := a.Tick(AutoCloseDelay - elapsed);
    atOldDeadline := a.closeCalls;
    var _ := a.Tick(elapsed);
    atNewDeadline := a.closeCalls;
  }

  /** A parent that passes a fresh callback on every render restarts the
      delay each time, and the stale callback is never called. */
  method NewCallbackReplacesStaleOne(first: Callback, second: Callback, elapsed: nat)
    returns (calls: seq<Callback>)
    requires first != second && elapsed < AutoCloseDelay
    ensures calls == [second]
  {
    var a := new Alert("Saved", "success", first, 0);
    var _ := a.Tick(elapsed);
    a.Render("Saved", "success", second);
    var _ := a.Tick(AutoCloseDelay);
    calls := a.closeCalls;
  }

  /** A new message of the same kind and callback keeps the first deadline:
      the second message is closed `AutoCloseDelay - elapsed` milliseconds
      after it appears, not a full delay later. */
  method MessageChangeKeepsDeadline(onClose: Callback, elapsed: nat)
    returns (calls: seq<Callback>, shown: string)
    requires 0 < elapsed < AutoCloseDelay
    ensures calls == [onClose] && shown == "Second"
  {
    var a := new Alert("First", "success", onClose, 0);
    var _ := a.Tick(elapsed);
    a.Render("Second", "success", onClose);
    var _ := a.Tick(AutoCloseDelay - elapsed);
    calls := a.closeCalls;
    shown := a.message;
  }
}
