/**
The typed sink registry: one slot per field type, at most one active callback per slot,
a process-wide count of active sinks, and slot pointers cached by each thread.
*/
module SinkRegistry {

  /** Stands for the `TypeId` of a request-field type. */
  type TypeKey = nat

  type ThreadId = nat

  datatype Outcome = Done | Inactive | Stale | AlreadyInstalled

  /** A reference-counted callback; only its identity matters here. */
  class Callback {
    constructor () {}
  }

  /** Slots are created once per type and never removed. */
  class SinkSlot {
    var callback: Callback?

    constructor ()
      ensures callback == null
    {
      callback := null;
    }
  }

  /** A registration is typed: `key` is the type it was issued for. */
  class SinkRegistration {
    const key: TypeKey
    const slot: SinkSlot
    var callback: Callback?

    constructor (key: TypeKey, slot: SinkSlot)
      ensures this.key == key && this.slot == slot && callback == null
    {
      this.key := key;
      this.slot := slot;
      callback := null;
    }
  }

  class Registry {
    var slots: map<TypeKey, SinkSlot>
    var activeSinks: nat
    /** What each thread has resolved so far. */
    var caches: map<(ThreadId, TypeKey), SinkSlot>
    /** Every registration ever handed out, dropped and forgotten ones included. */
    ghost var issued: set<SinkRegistration>
    /** The registrations that nobody holds and that will never be dropped. */
    ghost var forgotten: set<SinkRegistration>
    /** The types whose slot is occupied, and the one registration behind each of them. */
    ghost var occupied: set<TypeKey>
    ghost var live: map<TypeKey, SinkRegistration>

    ghost function Slots(): set<SinkSlot>
      reads this`slots
    {
      set k | k in slots :: slots[k]
    }

    /** The meaning of the registry: the current callback of a type, if there is one. */
    ghost function Current(key: TypeKey): (callback: Callback?)
      reads this`slots, Slots()
    {
      if key in slots then slots[key].callback else null
    }

    ghost predicate SlotsApart()
      reads this`slots
    {
      forall j, k :: j in slots && k in slots && j != k ==> slots[j] != slots[k]
    }

    /** The callback of the type stands for the life of the process: its registration is forgotten. */
    ghost predicate Permanent(key: TypeKey)
      reads this`occupied, this`live, this`forgotten
    {
      key in occupied && key in live && live[key] in forgotten
    }

    /** A registration knows its slot, and is the live one of its type while it is active. */
    ghost predicate RegistrationExact(r: SinkRegistration)
      reads this`slots, this`occupied, this`live, r
    {
      && r.key in slots && slots[r.key] == r.slot
      && (r.callback != null ==> r.key in occupied && r.key in live && live[r.key] == r)
    }

    /** A slot is occupied exactly while a live registration of its type stands behind it. */
    ghost predicate SlotExact(k: TypeKey)
      requires k in slots
      reads this`slots, this`issued, this`occupied, this`live, Slots(), issued
    {
      && (slots[k].callback != null <==> k in occupied)
      && (k in occupied ==> k in live && live[k] in issued && live[k].key == k && live[k].callback == slots[k].callback)
    }

    /** Occupied slots and live registrations correspond one to one. */
    ghost predicate LiveExact()
      reads this`slots, this`issued, this`occupied, this`live, Slots(), issued
    {
      && (forall r <- issued :: RegistrationExact(r))
      && (forall k <- slots :: SlotExact(k))
      && (forall k <- occupied :: k in slots)
    }

    ghost predicate CachesAgree()
      reads this`caches, this`slots
    {
      forall at :: at in caches ==> at.1 in slots && caches[at] == slots[at.1]
    }

    ghost predicate Valid()
      reads this, Slots(), issued
    {
      SlotsApart() && LiveExact() && CachesAgree() && activeSinks == |occupied| && forgotten <= issued
    }

    constructor ()
      ensures Valid() && slots == map[] && issued == {} == forgotten && activeSinks == 0
    {
      slots, activeSinks, caches := map[], 0, map[];
      issued, forgotten, occupied, live := {}, {}, {}, map[];
    }

    /** A slot is occupied exactly when the count includes it, so a zero count means no sink at all. */
    lemma CountIsOccupied()
      requires Valid()
      ensures activeSinks == |set k | k in slots && slots[k].callback != null|
      ensures activeSinks == 0 ==> forall key :: Current(key) == null
    {
      assert occupied == set k | k in slots && slots[k].callback != null;
      forall key | activeSinks == 0
        ensures Current(key) == null
      {
        assert key !in occupied;
      }
    }

    /** `register_sink`: fails exactly when the type already has an active callback. */
    method Register(key: TypeKey) returns (outcome: Outcome, r: SinkRegistration?)
      requires Valid()
      modifies this`slots, this`activeSinks, this`issued, this`occupied, this`live, Slots()
      ensures Valid() && caches == old(caches)
      ensures outcome == if old(Current(key)) != null then AlreadyInstalled else Done
      ensures forall k :: old(Permanent(k)) ==> Permanent(k)
      ensures forall k :: k in old(slots) ==> k in slots && slots[k] == old(slots[k])
      ensures forall other :: other != key ==> Current(other) == old(Current(other))
      ensures outcome.AlreadyInstalled? ==>
        r == null && issued == old(issued) && activeSinks == old(activeSinks) && Current(key) == old(Current(key))
      ensures outcome.Done? ==>
        && r != null && fresh(r) && r.key == key && issued == old(issued) + {r} && activeSinks == old(activeSinks) + 1
        && Current(key) != null && fresh(Current(key)) && r.callback == Current(key)
    {
      var callback := new Callback();
      SlotFor(key);
      outcome, r := TakeSlot(key, callback);
    }

    /** With the entry at hand: occupies an empty slot. */
    method TakeSlot(key: TypeKey, callback: Callback) returns (outcome: Outcome, r: SinkRegistration?)
      requires Valid() && key in slots
      modifies this`activeSinks, this`issued, this`occupied, this`live, slots[key]
      ensures Valid() && outcome == if old(Current(key)) != null then AlreadyInstalled else Done
      ensures slots == old(slots) && caches == old(caches)
      ensures forall k :: old(Permanent(k)) ==> Permanent(k)
      ensures forall other :: other != key ==> Current(other) == old(Current(other))
      ensures outcome.AlreadyInstalled? ==>
        r == null && issued == old(issued) && activeSinks == old(activeSinks) && Current(key) == old(Current(key))
      ensures outcome.Done? ==>
        && r != null && fresh(r) && r.key == key && issued == old(issued) + {r} && activeSinks == old(activeSinks) + 1
        && Current(key) == callback == r.callback
    {
      if slots[key].callback != null {
        return AlreadyInstalled, null;
      }
      r := Occupy(key, callback);
      outcome := Done;
    }

    method Occupy(key: TypeKey, callback: Callback) returns (r: SinkRegistration)
      requires Valid() && key in slots && slots[key].callback == null
      modifies this`activeSinks, this`issued, this`occupied, this`live, slots[key]
      ensures Valid() && fresh(r) && r.key == key && issued == old(issued) + {r}
      ensures activeSinks == old(activeSinks) + 1 && slots[key].callback == callback == r.callback
      ensures forall k :: old(Permanent(k)) ==> Permanent(k)
    {
      r := Enroll(key);
      Activate(r, callback);
    }

    /** The entry of a type, created empty on first use. */
    method SlotFor(key: TypeKey)
      requires Valid()
      modifies this`slots
      ensures Valid() && key in slots
      ensures slots == old(slots)[key := slots[key]] && (key in old(slots) ==> slots == old(slots))
      ensures key !in old(slots) ==> fresh(slots[key]) && slots[key].callback == null
      ensures forall k :: Current(k) == old(Current(k))
      ensures caches == old(caches)
    {
      if key !in slots {
        var empty := new SinkSlot();
        slots := slots[key := empty];
      }
    }

    /** A registration that is not active yet. */
    method Enroll(key: TypeKey) returns (r: SinkRegistration)
      requires Valid() && key in slots
      modifies this`issued
      ensures Valid() && fresh(r) && issued == old(issued) + {r}
      ensures r.key == key && r.slot == slots[key] && r.callback == null
    {
      r := new SinkRegistration(key, slots[key]);
      issued := issued + {r};
    }

    /** Only the callbacks of this registration and of its slot differ from before. */
    twostate predicate OnlyThese(r: SinkRegistration)
      reads this`slots, this`issued, this`caches, this`forgotten, Slots(), issued
    {
      && slots == old(slots) && issued == old(issued) && caches == old(caches) && forgotten == old(forgotten)
          && r in issued
      && (forall k <- slots :: slots[k] != r.slot ==> slots[k].callback == old(slots[k].callback))
      && (forall q <- issued :: q != r ==> q.callback == old(q.callback))
    }

    /** An activated registration is the live one of its type. */
    twostate lemma ActivationIsExact(r: SinkRegistration)
      requires old(Valid()) && OnlyThese(r)
      requires old(r.callback) == null && old(r.slot.callback) == null && r.slot.callback == r.callback != null
      requires occupied == old(occupied) + {r.key} && live == old(live)[r.key := r]
          && activeSinks == old(activeSinks) + 1
      ensures Valid()
    {
      forall k <- slots
        ensures SlotExact(k)
      {
        assert old(SlotExact(k));
        assert k != r.key ==> slots[k] != r.slot;
      }
      forall q <- issued
        ensures RegistrationExact(q)
      {
        assert old(RegistrationExact(q));
      }
    }

    twostate lemma DeactivationIsExact(r: SinkRegistration)
      requires old(Valid()) && OnlyThese(r)
      requires old(r.callback) != null && r.slot.callback == r.callback == null
      requires occupied == old(occupied) - {r.key} && live == old(live) && activeSinks == old(activeSinks) - 1
      ensures Valid()
    {
      forall k <- slots
        ensures SlotExact(k)
      {
        assert old(SlotExact(k));
        assert k != r.key ==> slots[k] != r.slot;
      }
      forall q <- issued
        ensures RegistrationExact(q)
      {
        assert old(RegistrationExact(q));
      }
    }

    /** Stores a callback in a registration and in its slot. */
    method SetCallback(r: SinkRegistration, callback: Callback?)
      requires Valid() && r in issued
      modifies r.slot, r`callback
      ensures r.slot.callback == callback == r.callback
      ensures OnlyThese(r)
    {
      r.slot.callback := callback;
      r.callback := callback;
    }

    method Activate(r: SinkRegistration, callback: Callback)
      requires Valid() && r in issued && r.callback == null && r.slot.callback == null
      modifies this`activeSinks, this`occupied, this`live, r.slot, r`callback
      ensures Valid() && activeSinks == old(activeSinks) + 1
      ensures r.slot.callback == callback == r.callback
      ensures occupied == old(occupied) + {r.key} && live == old(live)[r.key := r]
    {
      SetCallback(r, callback);
      occupied, live := occupied + {r.key}, live[r.key := r];
      activeSinks := activeSinks + 1;
      ActivationIsExact(r);
    }

    /** `std::mem::forget` */
    method Forget(r: SinkRegistration)
      requires Valid() && r in issued && r.callback != null
      modifies this`forgotten
      ensures Valid() && forgotten == old(forgotten) + {r} && Permanent(r.key)
    {
      ActiveIsLive(r);
      forgotten := forgotten + {r};
    }

    /** `install_sink`: the registration is forgotten, so the callback is permanent. */
    method Install(key: TypeKey) returns (outcome: Outcome)
      requires Valid()
      modifies this`slots, this`activeSinks, this`issued, this`forgotten, this`occupied, this`live, Slots()
      ensures Valid()
      ensures outcome == if old(Current(key)) != null then AlreadyInstalled else Done
      ensures Current(key) != null && (outcome.AlreadyInstalled? ==> Current(key) == old(Current(key)))
      ensures forall k :: old(Permanent(k)) ==> Permanent(k) && Current(k) == old(Current(k))
      ensures outcome.Done? ==> Permanent(key) && forgotten == old(forgotten) + (issued - old(issued))
      ensures outcome.AlreadyInstalled? ==> forgotten == old(forgotten)
      ensures forall other :: other != key ==> Current(other) == old(Current(other))
    {
      var r;
      outcome, r := Register(key);
      if r != null {
        Forget(r);
      }
    }

    /** Every registration of a permanent callback's type that somebody still holds is inactive,
        so by the contracts of `Replace` and `Disable` nobody can touch that callback. */
    lemma PermanentIsOutOfReach(key: TypeKey, r: SinkRegistration)
      requires Valid() && Permanent(key) && r in issued - forgotten && r.key == key
      ensures r.callback == null
    {
      assert RegistrationExact(r);
    }

    /** An active registration is the live one of its type, so it is never stale. */
    lemma ActiveIsLive(r: SinkRegistration)
      requires Valid() && r in issued && r.callback != null
      ensures r.key in occupied && r.key in live && live[r.key] == r
      ensures Current(r.key) == r.callback && r.slot.callback == r.callback
    {
    }

    /** `replace`: swaps the callback of an active registration; the stale answer cannot occur. */
    method Replace(r: SinkRegistration) returns (outcome: Outcome)
      requires Valid() && r in issued - forgotten
      modifies r`callback, r.slot
      ensures Valid()
      ensures forall key :: Permanent(key) ==> Current(key) == old(Current(key))
      ensures outcome == if old(r.callback) == null then Inactive else Done
      ensures outcome.Inactive? ==> r.callback == null && r.slot.callback == old(r.slot.callback)
      ensures outcome.Done? ==>
        && r.callback != null && fresh(r.callback)
        && forall key :: Current(key) == if key == r.key then r.callback else old(Current(key))
    {
      var current := r.callback;
      if current == null {
        return Inactive;
      }
      ActiveIsLive(r);
      var replacement := new Callback();
      if r.slot.callback != current {
        assert false;
      }
      r.slot.callback := replacement;
      r.callback := replacement;
      outcome := Done;
    }

    /** `disable`, and `drop`: empties the slot of an active registration. Answers true exactly
        when the registration was active; the stale branch cannot occur. */
    method Disable(r: SinkRegistration) returns (wasActive: bool)
      requires Valid() && r in issued - forgotten
      modifies this`activeSinks, this`occupied, this`live, r`callback, r.slot
      ensures Valid() && r.callback == null
      ensures forall key :: old(Permanent(key)) ==> Permanent(key) && Current(key) == old(Current(key))
      ensures wasActive <==> old(r.callback) != null
      ensures !wasActive ==> r.slot.callback == old(r.slot.callback) && activeSinks == old(activeSinks)
      ensures wasActive ==>
        && activeSinks == old(activeSinks) - 1
        && forall key :: Current(key) == if key == r.key then null else old(Current(key))
    {
      var current := r.callback;
      if current == null {
        return false;
      }
      ActiveIsLive(r);
      if r.slot.callback != current {
        assert false;
      }
      r.slot.callback := null;
      r.callback := null;
      occupied := occupied - {r.key};
      activeSinks := activeSinks - 1;
      DeactivationIsExact(r);
      wasActive := true;
    }

    /** `cached_sink`: this thread's cache first, then the registry, remembering what it found. */
    method CachedSink(thread: ThreadId, key: TypeKey) returns (slot: SinkSlot?)
      requires Valid()
      modifies this`caches
      ensures Valid()
      ensures if key in slots then slot == slots[key] else slot == null
      ensures forall at :: at in old(caches) ==> at in caches && caches[at] == old(caches[at])
      ensures key in slots ==> (thread, key) in caches
    {
      if (thread, key) in caches {
        return caches[(thread, key)];
      }
      if key !in slots {
        return null;
      }
      slot := slots[key];
      caches := caches[(thread, key) := slots[key]];
    }

    /** `dispatch`: whatever is cached, and whatever the fast path decides, it calls the current
        callback of the type or nothing. */
    method Dispatch(thread: ThreadId, key: TypeKey) returns (called: Callback?)
      requires Valid()
      modifies this`caches
      ensures Valid() && called == Current(key)
      ensures forall k :: Current(k) == old(Current(k))
    {
      if activeSinks == 0 {
        CountIsOccupied();
        return null;
      }
      var slot := CachedSink(thread, key);
      if slot == null {
        return null;
      }
      called := slot.callback;
    }
  }
}
