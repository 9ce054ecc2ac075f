/** The library's `NetworkStateListener`: an id, two optional callbacks and
    a one-way "destroyed" latch set by the lifecycle owner it observes. */
module StateListener {
  import opened ListenerIds

  /** Which of a listener's two callbacks is meant. */
  datatype Callback = OnConnected | OnDisConnected

  class NetworkStateListener {
    /** `id`, unique per instance. */
    const id: string
    /** `doOnConnected != null` and `doOnDisConnected != null`: the
        callbacks themselves are opaque closures, so only their presence
        is modelled; invoking one is recorded as a `Callback` value. */
    const hasOnConnected: bool
    const hasOnDisConnected: bool
    /** A lifecycle owner was given to `getInstance`, so the listener was
        added to that owner's observers. */
    const observed: bool

    /** `isDestroyed`. */
    var isDestroyed: bool

    constructor (id: string, hasOnConnected: bool, hasOnDisConnected: bool, observed: bool)
      ensures this.id == id
      ensures this.hasOnConnected == hasOnConnected && this.hasOnDisConnected == hasOnDisConnected
      ensures this.observed == observed
      ensures !isDestroyed
    {
      this.id := id;
      this.hasOnConnected := hasOnConnected;
      this.hasOnDisConnected := hasOnDisConnected;
      this.observed := observed;
      isDestroyed := false;
    }

    /** Whether the callback `c` was supplied. */
    predicate Has(c: Callback) {
      match c
      case OnConnected => hasOnConnected
      case OnDisConnected => hasOnDisConnected
    }

    /** `onDestroy`, which only the observed lifecycle owner calls: sets
        the latch. Nothing in the model clears it again. */
    method OnDestroy()
      requires observed
      modifies this
      ensures isDestroyed
    {
      isDestroyed := true;
    }

    /** `runOnConnected`: the callbacks it invokes, in order. */
    method RunOnConnected() returns (fired: seq<Callback>)
      ensures fired == [] || fired == [OnConnected]
      ensures fired != [] <==> !isDestroyed && hasOnConnected
    {
      fired := [];
      if !isDestroyed {
        if hasOnConnected {
          fired := [OnConnected];
        }
      }
    }

    /** `runOnDisConnected`: the callbacks it invokes, in order. */
    method RunOnDisConnected() returns (fired: seq<Callback>)
      ensures fired == [] || fired == [OnDisConnected]
      ensures fired != [] <==> !isDestroyed && hasOnDisConnected
    {
      fired := [];
      if !isDestroyed {
        if hasOnDisConnected {
          fired := [OnDisConnected];
        }
      }
    }
  }

  /** The source of fresh listener ids (the UUID generator): the `next`-th
      draw is `IdOf(next)`. */
  class IdSupply {
    var next: nat

    /** Every id drawn so far. */
    ghost function Issued(): set<string>
      reads this
    {
      set k | 0 <= k < next :: IdOf(k)
    }

    constructor ()
      ensures Issued() == {}
    {
      next := 0;
    }

    method Draw() returns (id: string)
      modifies this
      ensures id !in old(Issued())
      ensures Issued() == old(Issued()) + {id}
    {
      id := IdOf(next);
      forall k | 0 <= k < next
        ensures IdOf(k) != id
      {
        IdOfInjective(k, next);
      }
      next := next + 1;
      assert Issued() == old(Issued()) + {id} by {
        forall s | s in Issued() ensures s in old(Issued()) + {id} {
          var k :| 0 <= k < next && s == IdOf(k);
          if k < next - 1 {
            assert s in old(Issued());
          }
        }
      }
    }
  }

  /** `getInstance`: a listener with a never-used id, not destroyed, and
      observed exactly when a lifecycle owner is given. Callbacks default
      to absent. */
  method GetInstance(ids: IdSupply, hasOnConnected: bool, hasOnDisConnected: bool, hasLifecycleOwner: bool)
    returns (listener: NetworkStateListener)
    modifies ids
    ensures fresh(listener)
    ensures listener.id !in old(ids.Issued()) && ids.Issued() == old(ids.Issued()) + {listener.id}
    ensures listener.hasOnConnected == hasOnConnected && listener.hasOnDisConnected == hasOnDisConnected
    ensures listener.observed == hasLifecycleOwner
    ensures !listener.isDestroyed
  {
    var id := ids.Draw();
    listener := new NetworkStateListener(id, hasOnConnected, hasOnDisConnected, hasLifecycleOwner);
  }

  /** Once the latch is set, neither `run*` method invokes anything. */
  method RunAfterDestroyIsSilent(listener: NetworkStateListener)
    requires listener.observed
    modifies listener
  {
    listener.OnDestroy();
    var a := listener.RunOnConnected();
    var b := listener.RunOnDisConnected();
    assert a == [] && b == [];
  }
}
