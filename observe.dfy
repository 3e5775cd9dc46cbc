/** `observe.py`: an observable keeps a set of observers and notifies each
    of them after a change; `observed` notifies only after the decorated
    method returns normally. */
module Observe {
  import opened Wrappers
  import Errors

  type Error = Errors.Error

  /** An observer. `update` is the observer's own code: here it either
      records one notification, or fails with the observer's `failure`
      without recording it. */
  class Observer {
    const failure: Option<Error>
    var updates: nat

    constructor (failure: Option<Error>)
      ensures this.failure == failure && updates == 0
    {
      this.failure := failure;
      updates := 0;
    }

    /** `Observer.update(observable)`. */
    method Update(source: Observable) returns (r: Result<(), Error>)
      modifies this
      ensures failure.None? ==> r == Ok(()) && updates == old(updates) + 1
      ensures failure.Some? ==> r == Err(failure.value) && updates == old(updates)
    {
      if failure.Some? {
        r := Err(failure.value);
      } else {
        updates := updates + 1;
        r := Ok(());
      }
    }
  }

  /** An observable: the observers registered on it, once each. */
  class Observable {
    var observers: set<Observer>

    constructor ()
      ensures observers == {}
    {
      observers := {};
    }

    /** `attach(observer)`: anything but an observer is a `ValueError` and
        changes nothing; an observer already registered stays registered
        once. */
    method Attach(x: object) returns (r: Result<(), Error>)
      modifies this
      ensures r.Ok? <==> x is Observer
      ensures r.Ok? ==> observers == old(observers) + {x as Observer}
      ensures r.Err? ==> r.error == Errors.Value && observers == old(observers)
    {
      if x is Observer {
        observers := observers + {x as Observer};
        r := Ok(());
      } else {
        r := Err(Errors.Value);
      }
    }

    /** `detach(observer)`: the observer is no longer registered, whether it
        was or not; anything but an observer is a `ValueError`. */
    method Detach(x: object) returns (r: Result<(), Error>)
      modifies this
      ensures r.Ok? <==> x is Observer
      ensures r.Ok? ==> observers == old(observers) - {x as Observer}
      ensures r.Err? ==> r.error == Errors.Value && observers == old(observers)
    {
      if x is Observer {
        observers := observers - {x as Observer};
        r := Ok(());
      } else {
        r := Err(Errors.Value);
      }
    }

    /** `notify()`: each registered observer is updated once, in some order;
        the first failure ends the notification and is raised, so the
        notification succeeds exactly when no observer fails. */
    method Notify() returns (r: Result<(), Error>)
      modifies observers
      ensures r.Ok? <==> forall o :: o in observers ==> o.failure.None?
      ensures r.Ok? ==> forall o :: o in observers ==> o.updates == old(o.updates) + 1
      ensures r.Err? ==> exists o :: o in observers && o.failure == Some(r.error)
      ensures forall o :: o in observers ==> o.updates == old(o.updates) || o.updates == old(o.updates) + 1
    {
      var left := observers;
      ghost var done: set<Observer> := {};
      r := Ok(());
      while left != {}
        invariant left <= observers && done == observers - left
        invariant forall o :: o in done ==> o.failure.None? && o.updates == old(o.updates) + 1
        invariant forall o :: o in left ==> o.updates == old(o.updates)
        decreases left
      {
        var o :| o in left;
        var u := o.Update(this);
        if u.Err? {
          r := u;
          return;
        }
        left := left - {o};
        done := done + {o};
      }
    }

    /** `observed`: the decorated method's `result` is passed on; when it
        is normal, the observers are notified once first, and a failing
        observer's error is raised instead. */
    method Observed<T>(result: Result<T, Error>) returns (r: Result<T, Error>)
      modifies observers
      ensures result.Err? ==> r == result && forall o :: o in observers ==> o.updates == old(o.updates)
      ensures r.Ok? ==> r == result
      ensures result.Ok? ==> (r.Ok? <==> forall o :: o in observers ==> o.failure.None?)
      ensures result.Ok? && r.Ok? ==> forall o :: o in observers ==> o.updates == old(o.updates) + 1
      ensures result.Ok? && r.Err? ==> exists o :: o in observers && o.failure == Some(r.error)
      ensures forall o :: o in observers ==> o.updates == old(o.updates) || o.updates == old(o.updates) + 1
    {
      r := result;
      if result.Ok? {
        var n := Notify();
        if n.Err? {
          r := Err(n.error);
        }
      }
    }
  }
}
