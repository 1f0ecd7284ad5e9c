/**
 * The state `Handler` keeps for one window in Internet Explorer, as an object
 * whose methods update it in place: `add`, `remove`, `_find`, `_uid` and the
 * unload hook `_removeAllHandlers` (base/Event.js).
 */
module Handler {
  import opened HandlerRegistry

  class Registry {
    /** `Handler._counter`: how many ids `_uid` has handed out. */
    var counter: nat
    /** `w._allHandlers` (before its first use it is missing, which reads like the empty map). */
    var allHandlers: map<string, Record>
    /** `element._handlers`, for every element that has one. */
    var handlers: map<Element, seq<string>>
    /** `w._onunloadHandlerRegistered`. */
    var unloadRegistered: bool
    /** The element registrations `attachEvent` holds that `add` made. */
    ghost var attached: set<Attachment>
    /** How many times the unload hook has been attached to the window. */
    ghost var unloadHooks: nat

    ghost predicate Valid()
      reads this
    {
      Consistent(counter, allHandlers, handlers, attached, unloadRegistered, unloadHooks)
    }

    /** What `_find(element, eventType, handler)` yields in this state. */
    function Lookup(element: Element, eventType: string, handler: Listener): FindResult
      reads this
    {
      if element !in handlers then At(-1) else Scan(handlers[element], allHandlers, eventType, handler)
    }

    /** Some record registers `handler` for `eventType` on `element`. */
    ghost predicate Registered(element: Element, eventType: string, handler: Listener)
      reads this
    {
      exists id :: id in allHandlers && allHandlers[id].element == element && Matches(allHandlers[id], eventType, handler)
    }

    /** A window before any registration (line 291 starts the counter at 0). */
    constructor ()
      ensures Valid()
      ensures counter == 0 && allHandlers == map[] && handlers == map[]
      ensures !unloadRegistered && attached == {}
    {
      counter := 0;
      allHandlers := map[];
      handlers := map[];
      unloadRegistered := false;
      attached := {};
      unloadHooks := 0;
    }

    /** Under the invariant, `_find` locates a registration exactly when one is recorded. */
    lemma LookupFindsRegistered(element: Element, eventType: string, handler: Listener)
      requires Valid()
      ensures Lookup(element, eventType, handler).At? ==> Lookup(element, eventType, handler).index >= -1
      ensures Lookup(element, eventType, handler) == At(-1) ==> !Registered(element, eventType, handler)
      ensures Lookup(element, eventType, handler).At? && Lookup(element, eventType, handler).index >= 0 ==>
                Registered(element, eventType, handler)
    {
      var r := Lookup(element, eventType, handler);
      if element in handlers {
        var ids := handlers[element];
        ScanFindsLast(ids, allHandlers, eventType, handler);
        if r == At(-1) {
          forall id | id in allHandlers && allHandlers[id].element == element
            ensures !Matches(allHandlers[id], eventType, handler)
          {
            var j :| 0 <= j < |ids| && ids[j] == id;
            assert Skipped(ids, allHandlers, eventType, handler, j);
          }
        }
        if r.At? && r.index >= 0 {
          assert ids[r.index] in allHandlers;
        }
      } else {
        forall id | id in allHandlers
          ensures allHandlers[id].element != element
        {
        }
      }
    }

    /** Line 293: `"h" + Handler._counter++`. */
    method NextUid() returns (id: string)
      modifies this`counter
      ensures id == Uid(old(counter)) && counter == old(counter) + 1
    {
      id := Uid(counter);
      counter := counter + 1;
    }

    /** Lines 211-251: `_find`, a backward search of the element's ids. */
    method Find(element: Element, eventType: string, handler: Listener) returns (r: FindResult)
      ensures element !in handlers ==> r == At(-1)
      ensures element in handlers ==> r == Scan(handlers[element], allHandlers, eventType, handler)
    {
      if element !in handlers {
        return At(-1);
      }
      var ids := handlers[element];
      var i := |ids| - 1;
      assert ids[..i + 1] == ids;
      while i >= 0
        invariant -1 <= i < |ids|
        invariant Scan(ids, allHandlers, eventType, handler) == Scan(ids[..i + 1], allHandlers, eventType, handler)
      {
        var id := ids[i];
        assert ids[..i + 1][..i] == ids[..i];
        if id !in allHandlers {
          return Throws;
        }
        var h := allHandlers[id];
        if h.eventType == eventType && h.handler == handler {
          return At(i);
        }
        i := i - 1;
      }
      return At(-1);
    }

    /**
     * Lines 17-161: `add`. A registration `_find` already locates is left
     * alone; otherwise a new wrapper is attached, recorded under a new id,
     * listed last on the element, and the unload hook attached if it was not.
     */
    method Add(element: Element, eventType: string, handler: Listener) returns (outcome: Outcome)
      requires Valid()
      modifies this
      ensures Valid()
      ensures old(Lookup(element, eventType, handler)) == Throws ==> outcome == Threw && unchanged(this)
      ensures old(Lookup(element, eventType, handler)).At? && old(Lookup(element, eventType, handler)).index >= 0 ==>
                outcome == Returned && unchanged(this)
      ensures old(Lookup(element, eventType, handler)) == At(-1) ==>
                var id := Uid(old(counter));
                && outcome == Returned
                && id !in old(allHandlers) && id in allHandlers
                && fresh(allHandlers[id].wrapped)
                && allHandlers == old(allHandlers)[id := Record(element, eventType, handler, allHandlers[id].wrapped)]
                && handlers == old(handlers)[element := ListOf(old(handlers), element) + [id]]
                && attached == old(attached) + {(element, "on" + eventType, allHandlers[id].wrapped)}
                && counter == old(counter) + 1
                && unloadRegistered && unloadHooks == 1
      ensures outcome == Returned ==> Registered(element, eventType, handler)
    {
      var found := Find(element, eventType, handler);
      if found == Throws {
        return Threw;
      }
      if found.index != -1 {
        LookupFindsRegistered(element, eventType, handler);
        return Returned;
      }
      var w := Attach(element, eventType, handler);
      assert allHandlers[Uid(old(counter))] == Record(element, eventType, handler, w);
      return Returned;
    }

    /**
     * Lines 81-159: what `add` does once `_find` has answered -1. A new
     * wrapper is attached and recorded under a new id, the id is listed
     * last on the element, and the unload hook is attached if it was not.
     */
    method Attach(element: Element, eventType: string, handler: Listener) returns (ghost w: Wrapper)
      requires Valid()
      requires Lookup(element, eventType, handler) == At(-1)
      modifies this
      ensures Valid()
      ensures var id := Uid(old(counter));
              && id !in old(allHandlers)
              && fresh(w) && w.element == element && w.handler == handler
              && allHandlers == old(allHandlers)[id := Record(element, eventType, handler, w)]
              && handlers == old(handlers)[element := ListOf(old(handlers), element) + [id]]
              && attached == old(attached) + {(element, "on" + eventType, w)}
              && counter == old(counter) + 1
              && unloadRegistered && unloadHooks == 1
    {
      // Line 81: attach a new wrapper.
      var wrapped := new Wrapper(element, handler);
      w := wrapped;
      ghost var (counter0, all0, lists0, attached0) := (counter, allHandlers, handlers, attached);
      ghost var (registered0, hooks0) := (unloadRegistered, unloadHooks);
      attached := attached + {(element, "on" + eventType, wrapped)};
      // Lines 99-137: record it under a new id.
      var h := Record(element, eventType, handler, wrapped);
      var id := NextUid();
      allHandlers := allHandlers[id := h];
      // Lines 143-145: list it on the element.
      handlers := handlers[element := ListOf(handlers, element) + [id]];
      // Lines 153-159: the unload hook, once.
      if !unloadRegistered {
        unloadRegistered := true;
        unloadHooks := unloadHooks + 1;
      }
      AddRecord(counter0, all0, lists0, attached0, registered0, hooks0, element, eventType, handler, wrapped,
                allHandlers, handlers, attached);
    }

    /**
     * Lines 165-203: `remove`. A registration `_find` does not locate is left
     * alone; otherwise its wrapper is detached, its id spliced out of the
     * element's list and its record deleted.
     */
    method Remove(element: Element, eventType: string, handler: Listener) returns (outcome: Outcome)
      requires Valid()
      modifies this`allHandlers, this`handlers, this`attached
      ensures Valid()
      ensures old(Lookup(element, eventType, handler)) == Throws ==> outcome == Threw && unchanged(this)
      ensures old(Lookup(element, eventType, handler)) == At(-1) ==> outcome == Returned && unchanged(this)
      ensures old(Lookup(element, eventType, handler)).At? && old(Lookup(element, eventType, handler)).index >= 0 ==>
                var i := old(Lookup(element, eventType, handler)).index;
                var ids := old(handlers)[element];
                && 0 <= i < |ids|
                && ids[i] in old(allHandlers)
                && outcome == Returned
                && handlers == old(handlers)[element := ids[..i] + ids[i + 1..]]
                && allHandlers == old(allHandlers) - {ids[i]}
                && attached == old(attached) - {(element, "on" + eventType, old(allHandlers)[ids[i]].wrapped)}
      ensures outcome == Returned ==> !Registered(element, eventType, handler)
      ensures counter == old(counter) && unloadRegistered == old(unloadRegistered)
    {
      var found := Find(element, eventType, handler);
      if found == Throws {
        return Threw;
      }
      if found.index == -1 {
        LookupFindsRegistered(element, eventType, handler);
        return Returned;
      }
      LookupFindsRegistered(element, eventType, handler);
      ScanFound(handlers[element], allHandlers, eventType, handler, found.index);
      OnlyMatch(allHandlers, handlers[element][found.index], element, eventType, handler);
      Unlist(element, found.index);
      return Returned;
    }

    /**
     * Lines 191-201: detach the wrapper recorded under the id at position `i`
     * of the element's list, splice the id out and delete its record.
     */
    method Unlist(element: Element, i: nat)
      requires Valid()
      requires element in handlers && i < |handlers[element]| && handlers[element][i] in allHandlers
      modifies this`allHandlers, this`handlers, this`attached
      ensures Valid()
      ensures var ids := old(handlers)[element];
              var h := old(allHandlers)[ids[i]];
              && handlers == old(handlers)[element := ids[..i] + ids[i + 1..]]
              && allHandlers == old(allHandlers) - {ids[i]}
              && attached == old(attached) - {(h.element, "on" + h.eventType, h.wrapped)}
    {
      var ids := handlers[element];
      var handlerId := ids[i];
      var h := allHandlers[handlerId];
      RemoveRecord(counter, allHandlers, handlers, attached, unloadRegistered, unloadHooks, element, i);
      // Line 193: detach the wrapper.
      attached := attached - {(h.element, "on" + h.eventType, h.wrapped)};
      // Line 197: splice the id out of the element's list.
      handlers := handlers[element := ids[..i] + ids[i + 1..]];
      // Line 201: delete the record.
      allHandlers := allHandlers - {handlerId};
    }

    /**
     * Lines 255-285: `_removeAllHandlers`, the unload hook. Every recorded
     * wrapper is detached and every record deleted; the elements' lists keep
     * their (now dangling) ids.
     */
    method RemoveAll()
      requires Valid()
      modifies this`allHandlers, this`attached
      ensures Valid()
      ensures allHandlers == map[] && attached == {}
      ensures handlers == old(handlers) && counter == old(counter) && unloadRegistered == old(unloadRegistered)
    {
      while allHandlers != map[]
        invariant Valid()
        decreases allHandlers.Keys
      {
        var id :| id in allHandlers;
        DetachRecord(id);
      }
    }

    /** Lines 273-281: one round of the unload hook's loop, for the record of `id`. */
    method DetachRecord(id: string)
      requires Valid() && id in allHandlers
      modifies this`allHandlers, this`attached
      ensures Valid()
      ensures allHandlers == old(allHandlers) - {id}
      ensures var h := old(allHandlers)[id]; attached == old(attached) - {(h.element, "on" + h.eventType, h.wrapped)}
    {
      var h := allHandlers[id];
      DropRecord(counter, allHandlers, handlers, attached, unloadRegistered, unloadHooks, id);
      attached := attached - {(h.element, "on" + h.eventType, h.wrapped)};
      allHandlers := allHandlers - {id};
    }
  }
}
