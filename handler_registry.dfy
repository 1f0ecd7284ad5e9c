/**
 * A model of the Internet Explorer branch of `Handler` (base/Event.js), the
 * bookkeeping that lets `remove` and the window's unload hook find again the
 * wrapper function `add` registered with `attachEvent`.
 *
 * State, for the single window the model knows:
 *  - `Handler._counter`, which numbers the handler ids "h0", "h1", ...;
 *  - `w._allHandlers`, from handler id to a record of the registration;
 *  - `element._handlers`, the ids registered on each element, oldest first;
 *  - `w._onunloadHandlerRegistered`, set once the unload hook is attached.
 * Elements and user handler functions are opaque identities; each wrapper
 * closure is a new object. What `attachEvent`/`detachEvent` have registered
 * is kept as a ghost set of (element, "on" + type, wrapper) triples.
 */
module HandlerRegistry {

  /** A DOM element, as an opaque identity. */
  type Element = nat

  /** A user-supplied handler function, as an opaque identity. */
  type Listener = nat

  /** The closure `wrappedHandler` that one call of `add` creates (lines 19-75); its body is not modelled. */
  class Wrapper {
    const element: Element
    const handler: Listener

    constructor (element: Element, handler: Listener)
      ensures this.element == element && this.handler == handler
    {
      this.element := element;
      this.handler := handler;
    }
  }

  /** The object `h` of lines 99-109. */
  datatype Record = Record(element: Element, eventType: string, handler: Listener, wrapped: Wrapper)

  /** An `attachEvent` registration: element, "on"-prefixed event name, function. */
  type Attachment = (Element, string, Wrapper)

  /** How a call of `add` or `remove` ends. */
  datatype Outcome = Returned | Threw

  /** What `_find` yields: an index (-1 for none), or a TypeError from reading a deleted record. */
  datatype FindResult = At(index: int) | Throws

  // ---------------------------------------------------------------------------
  // Handler ids
  // ---------------------------------------------------------------------------

  function DigitChar(d: nat): char
    requires d < 10
  {
    (48 + d) as char
  }

  /** The decimal digits of `n`, as JavaScript converts a whole number below 10^21 to a string. */
  function Decimal(n: nat): (s: string)
    ensures 1 <= |s|
    ensures n >= 10 ==> 2 <= |s|
  {
    if n < 10 then [DigitChar(n)] else Decimal(n / 10) + [DigitChar(n % 10)]
  }

  /** The id `_uid` hands out when the counter is `n`: `"h" + n`. */
  function Uid(n: nat): string {
    "h" + Decimal(n)
  }

  /** Distinct numbers have distinct decimal representations. */
  lemma {:induction false} DecimalInjective(m: nat, n: nat)
    requires Decimal(m) == Decimal(n)
    ensures m == n
  {
    if m >= 10 && n >= 10 {
      var sm, sn := Decimal(m), Decimal(n);
      assert sm[..|sm| - 1] == Decimal(m / 10);
      assert sn[..|sn| - 1] == Decimal(n / 10);
      DecimalInjective(m / 10, n / 10);
      assert DigitChar(m % 10) == sm[|sm| - 1] == sn[|sn| - 1] == DigitChar(n % 10);
    }
  }

  /** Successive counter values give pairwise distinct ids. */
  lemma UidInjective(m: nat, n: nat)
    requires m != n
    ensures Uid(m) != Uid(n)
  {
    if Uid(m) == Uid(n) {
      assert Uid(m)[1..] == Decimal(m) && Uid(n)[1..] == Decimal(n);
      DecimalInjective(m, n);
    }
  }

  /** `_uid` will never hand out `id` again once the counter has reached `counter`. */
  ghost predicate Spent(id: string, counter: nat) {
    forall n: nat :: counter <= n ==> id != Uid(n)
  }

  /** Every id `_uid` has handed out is spent: the counter never repeats one. */
  lemma IssuedIsSpent(n: nat, counter: nat)
    requires n < counter
    ensures Spent(Uid(n), counter)
  {
    forall m: nat | counter <= m
      ensures Uid(n) != Uid(m)
    {
      UidInjective(n, m);
    }
  }

  // ---------------------------------------------------------------------------
  // The backward search of `_find`
  // ---------------------------------------------------------------------------

  predicate Matches(r: Record, eventType: string, handler: Listener) {
    r.eventType == eventType && r.handler == handler
  }

  /** The id at `j` has a record, and that record is not the one sought. */
  predicate Skipped(ids: seq<string>, all: map<string, Record>, eventType: string, handler: Listener, j: int)
    requires 0 <= j < |ids|
  {
    ids[j] in all && !Matches(all[ids[j]], eventType, handler)
  }

  /** Every id after position `i` is skipped. */
  predicate LaterSkipped(ids: seq<string>, all: map<string, Record>, eventType: string, handler: Listener, i: int) {
    forall j :: i < j < |ids| && 0 <= j ==> Skipped(ids, all, eventType, handler, j)
  }

  /** Lines 235-249: examine `ids` from the last one down, reading each record. */
  function Scan(ids: seq<string>, all: map<string, Record>, eventType: string, handler: Listener): FindResult
    decreases |ids|
  {
    if ids == [] then At(-1)
    else
      var last := ids[|ids| - 1];
      if last !in all then Throws
      else if Matches(all[last], eventType, handler) then At(|ids| - 1)
      else Scan(ids[..|ids| - 1], all, eventType, handler)
  }

  /**
   * `Scan` yields the greatest index whose record matches, provided every
   * later id has a record; -1 when every id has a record and none matches;
   * and throws when it reaches an id without a record first.
   */
  lemma {:induction false} ScanFindsLast(ids: seq<string>, all: map<string, Record>, eventType: string, handler: Listener)
    ensures var r := Scan(ids, all, eventType, handler);
      && (r.At? ==> -1 <= r.index < |ids|)
      && (r == At(-1) <==> forall j :: 0 <= j < |ids| ==> Skipped(ids, all, eventType, handler, j))
      && (forall i :: 0 <= i < |ids| ==>
            (r == At(i) <==>
               && ids[i] in all && Matches(all[ids[i]], eventType, handler)
               && LaterSkipped(ids, all, eventType, handler, i)))
      && (r == Throws <==>
            exists i :: 0 <= i < |ids| && ids[i] !in all && LaterSkipped(ids, all, eventType, handler, i))
    decreases |ids|
  {
    if ids != [] {
      var n := |ids| - 1;
      var front := ids[..n];
      ScanFindsLast(front, all, eventType, handler);
      forall j | 0 <= j < n
        ensures Skipped(ids, all, eventType, handler, j) == Skipped(front, all, eventType, handler, j)
      {
      }
      var r := Scan(ids, all, eventType, handler);
      if ids[n] !in all {
        assert r == Throws;
        assert !Skipped(ids, all, eventType, handler, n);
        assert ids[n] !in all && LaterSkipped(ids, all, eventType, handler, n);
      } else if Matches(all[ids[n]], eventType, handler) {
        assert r == At(n);
        assert !Skipped(ids, all, eventType, handler, n);
      } else {
        assert Skipped(ids, all, eventType, handler, n);
        if r == Throws {
          var i :| 0 <= i < n && front[i] !in all && LaterSkipped(front, all, eventType, handler, i);
          assert ids[i] !in all && LaterSkipped(ids, all, eventType, handler, i);
        }
      }
    }
  }

  // ---------------------------------------------------------------------------
  // The registry
  // ---------------------------------------------------------------------------

  /** What `attachEvent` holds for the recorded registrations. */
  ghost function Attachments(all: map<string, Record>): set<Attachment> {
    set id | id in all :: (all[id].element, "on" + all[id].eventType, all[id].wrapped)
  }

  /** At most one record per (element, event type, handler). */
  ghost predicate NoDuplicates(all: map<string, Record>) {
    forall id1, id2 ::
      (id1 in all && id2 in all && all[id1].element == all[id2].element &&
       Matches(all[id1], all[id2].eventType, all[id2].handler)) ==> id1 == id2
  }

  /** Every record has its own wrapper, closed over the record's element and handler. */
  ghost predicate OwnWrappers(all: map<string, Record>) {
    && (forall id :: id in all ==> all[id].wrapped.element == all[id].element &&
                                   all[id].wrapped.handler == all[id].handler)
    && (forall id1, id2 :: id1 in all && id2 in all && all[id1].wrapped == all[id2].wrapped ==> id1 == id2)
  }

  lemma AttachmentsAdd(all: map<string, Record>, id: string, r: Record)
    requires id !in all
    ensures Attachments(all[id := r]) == Attachments(all) + {(r.element, "on" + r.eventType, r.wrapped)}
  {
    var all' := all[id := r];
    forall a | a in Attachments(all')
      ensures a in Attachments(all) + {(r.element, "on" + r.eventType, r.wrapped)}
    {
      var x :| x in all' && a == (all'[x].element, "on" + all'[x].eventType, all'[x].wrapped);
      if x != id {
        assert x in all && all'[x] == all[x];
      }
    }
    forall a | a in Attachments(all)
      ensures a in Attachments(all')
    {
      var x :| x in all && a == (all[x].element, "on" + all[x].eventType, all[x].wrapped);
      assert x in all' && all'[x] == all[x];
    }
    assert id in all' && all'[id] == r;
  }

  lemma AttachmentsRemove(all: map<string, Record>, id: string)
    requires id in all && OwnWrappers(all)
    ensures Attachments(all - {id}) == Attachments(all) - {(all[id].element, "on" + all[id].eventType, all[id].wrapped)}
  {
    var all' := all - {id};
    var gone := (all[id].element, "on" + all[id].eventType, all[id].wrapped);
    forall a | a in Attachments(all')
      ensures a in Attachments(all) && a != gone
    {
      var x :| x in all' && a == (all'[x].element, "on" + all'[x].eventType, all'[x].wrapped);
      assert x in all && all[x] == all'[x] && x != id;
      assert all[x].wrapped != all[id].wrapped;
    }
    forall a | a in Attachments(all) && a != gone
      ensures a in Attachments(all')
    {
      var x :| x in all && a == (all[x].element, "on" + all[x].eventType, all[x].wrapped);
      assert x != id;
      assert x in all' && all'[x] == all[x];
    }
  }

  /** The ids listed on `element`: none when it has no `_handlers`. */
  function ListOf(lists: map<Element, seq<string>>, element: Element): seq<string> {
    if element in lists then lists[element] else []
  }

  /** No recorded and no listed id is one the counter will hand out. */
  ghost predicate IdsSpent(counter: nat, all: map<string, Record>, lists: map<Element, seq<string>>) {
    && (forall id :: id in all ==> Spent(id, counter))
    && (forall e, i :: e in lists && 0 <= i < |lists[e]| ==> Spent(lists[e][i], counter))
  }

  /** No id is listed twice, on one element or on two. */
  predicate ListedOnce(lists: map<Element, seq<string>>) {
    forall e1, i1, e2, i2 ::
      (e1 in lists && e2 in lists && 0 <= i1 < |lists[e1]| && 0 <= i2 < |lists[e2]| &&
       lists[e1][i1] == lists[e2][i2]) ==> e1 == e2 && i1 == i2
  }

  /** Every record is listed on its element, and a listed id with a record belongs to that element. */
  predicate ListedUnder(all: map<string, Record>, lists: map<Element, seq<string>>) {
    && (forall id :: id in all ==> all[id].element in lists && id in lists[all[id].element])
    && (forall e, i :: e in lists && 0 <= i < |lists[e]| && lists[e][i] in all ==> all[lists[e][i]].element == e)
  }

  /**
   * The registry invariant. Ids are issued by the counter and listed once,
   * under the element of their record; every record is listed; one record per
   * registration; `attachEvent` holds exactly the recorded wrappers; one
   * unload hook once the flag is set. A listed id may have lost its record
   * (after unload).
   */
  ghost predicate Consistent(counter: nat, all: map<string, Record>, lists: map<Element, seq<string>>,
                             attached: set<Attachment>, registered: bool, hooks: nat)
  {
    && IdsSpent(counter, all, lists)
    && ListedOnce(lists)
    && ListedUnder(all, lists)
    && NoDuplicates(all)
    && OwnWrappers(all)
    && attached == Attachments(all)
    && hooks == (if registered then 1 else 0)
  }

  /** Deleting one record (and detaching its wrapper) keeps the invariant. */
  lemma DropRecord(counter: nat, all: map<string, Record>, lists: map<Element, seq<string>>,
                   attached: set<Attachment>, registered: bool, hooks: nat, id: string)
    requires Consistent(counter, all, lists, attached, registered, hooks)
    requires id in all
    ensures Consistent(counter, all - {id}, lists,
                       attached - {(all[id].element, "on" + all[id].eventType, all[id].wrapped)}, registered, hooks)
  {
    AttachmentsRemove(all, id);
  }

  /** The id the counter hands out next is neither recorded nor listed; afterwards it is spent too. */
  lemma NewIdSpent(counter: nat, all: map<string, Record>, lists: map<Element, seq<string>>)
    requires IdsSpent(counter, all, lists)
    ensures Uid(counter) !in all
    ensures forall e, i :: e in lists && 0 <= i < |lists[e]| ==> lists[e][i] != Uid(counter)
    ensures IdsSpent(counter + 1, all, lists)
    ensures Spent(Uid(counter), counter + 1)
  {
    IssuedIsSpent(counter, counter + 1);
  }

  /** Appending an id that no list holds keeps every id listed once. */
  lemma AppendListedOnce(lists: map<Element, seq<string>>, element: Element, id: string)
    requires ListedOnce(lists)
    requires forall e, i :: e in lists && 0 <= i < |lists[e]| ==> lists[e][i] != id
    ensures ListedOnce(lists[element := ListOf(lists, element) + [id]])
  {
    var list := ListOf(lists, element);
    var lists' := lists[element := list + [id]];
    forall e1, i1, e2, i2 |
      e1 in lists' && e2 in lists' && 0 <= i1 < |lists'[e1]| && 0 <= i2 < |lists'[e2]| &&
      lists'[e1][i1] == lists'[e2][i2]
      ensures e1 == e2 && i1 == i2
    {
      var new1 := e1 == element && i1 == |list|;
      var new2 := e2 == element && i2 == |list|;
      if !new1 {
        assert lists'[e1][i1] == lists[e1][i1];
      }
      if !new2 {
        assert lists'[e2][i2] == lists[e2][i2];
      }
    }
  }

  /** Recording a new id and appending it to its element's list keeps every record listed under its element. */
  lemma AppendListedUnder(all: map<string, Record>, lists: map<Element, seq<string>>, id: string, r: Record)
    requires ListedUnder(all, lists)
    requires id !in all
    requires forall e, i :: e in lists && 0 <= i < |lists[e]| ==> lists[e][i] != id
    ensures ListedUnder(all[id := r], lists[r.element := ListOf(lists, r.element) + [id]])
  {
    var all' := all[id := r];
    var list := ListOf(lists, r.element);
    var lists' := lists[r.element := list + [id]];
    forall x | x in all'
      ensures all'[x].element in lists' && x in lists'[all'[x].element]
    {
      if x == id {
        assert lists'[r.element][|list|] == id;
      } else {
        var e := all[x].element;
        var j :| 0 <= j < |lists[e]| && lists[e][j] == x;
        assert lists'[e][j] == x;
      }
    }
    forall e, i | e in lists' && 0 <= i < |lists'[e]| && lists'[e][i] in all'
      ensures all'[lists'[e][i]].element == e
    {
      if !(e == r.element && i == |list|) {
        assert lists'[e][i] == lists[e][i];
      }
    }
  }

  /** When `_find` answers -1, no record on `element` registers `handler` for `eventType`. */
  lemma NotFoundUnmatched(all: map<string, Record>, lists: map<Element, seq<string>>,
                          element: Element, eventType: string, handler: Listener)
    requires ListedUnder(all, lists)
    requires element in lists ==> Scan(lists[element], all, eventType, handler) == At(-1)
    ensures forall x :: x in all && all[x].element == element ==> !Matches(all[x], eventType, handler)
  {
    if element in lists {
      var ids := lists[element];
      ScanFindsLast(ids, all, eventType, handler);
      forall x | x in all && all[x].element == element
        ensures !Matches(all[x], eventType, handler)
      {
        var j :| 0 <= j < |ids| && ids[j] == x;
        assert Skipped(ids, all, eventType, handler, j);
      }
    } else {
      forall x | x in all
        ensures all[x].element != element
      {
      }
    }
  }

  /** What `add` does once `_find` has answered -1 keeps the invariant. */
  lemma AddRecord(counter: nat, all: map<string, Record>, lists: map<Element, seq<string>>,
                  attached: set<Attachment>, registered: bool, hooks: nat,
                  element: Element, eventType: string, handler: Listener, w: Wrapper,
                  all': map<string, Record>, lists': map<Element, seq<string>>, attached': set<Attachment>)
    requires Consistent(counter, all, lists, attached, registered, hooks)
    requires element in lists ==> Scan(lists[element], all, eventType, handler) == At(-1)
    requires forall id :: id in all ==> all[id].wrapped != w
    requires w.element == element && w.handler == handler
    requires all' == all[Uid(counter) := Record(element, eventType, handler, w)]
    requires lists' == lists[element := ListOf(lists, element) + [Uid(counter)]]
    requires attached' == attached + {(element, "on" + eventType, w)}
    ensures Uid(counter) !in all
    ensures Consistent(counter + 1, all', lists', attached', true, 1)
  {
    var id := Uid(counter);
    var r := Record(element, eventType, handler, w);
    AppendSpent(counter, all, lists, element, r);
    AppendListedOnce(lists, element, id);
    AppendListedUnder(all, lists, id, r);
    NotFoundUnmatched(all, lists, element, eventType, handler);
    AddUnique(all, id, r);
    AttachmentsAdd(all, id, r);
  }

  /** Recording and listing the id the counter hands out, then advancing it, leaves every id spent. */
  lemma AppendSpent(counter: nat, all: map<string, Record>, lists: map<Element, seq<string>>, element: Element, r: Record)
    requires IdsSpent(counter, all, lists)
    ensures Uid(counter) !in all
    ensures forall e, i :: e in lists && 0 <= i < |lists[e]| ==> lists[e][i] != Uid(counter)
    ensures IdsSpent(counter + 1, all[Uid(counter) := r], lists[element := ListOf(lists, element) + [Uid(counter)]])
  {
    var lists' := lists[element := ListOf(lists, element) + [Uid(counter)]];
    NewIdSpent(counter, all, lists);
    forall e, i | e in lists' && 0 <= i < |lists'[e]|
      ensures Spent(lists'[e][i], counter + 1)
    {
      if !(e == element && i == |ListOf(lists, element)|) {
        assert lists'[e][i] == lists[e][i];
      }
    }
  }

  /** A new record with a new wrapper, for a registration no record on its element holds, keeps records unique. */
  lemma AddUnique(all: map<string, Record>, id: string, r: Record)
    requires NoDuplicates(all) && OwnWrappers(all)
    requires id !in all
    requires forall x :: x in all && all[x].element == r.element ==> !Matches(all[x], r.eventType, r.handler)
    requires forall x :: x in all ==> all[x].wrapped != r.wrapped
    requires r.wrapped.element == r.element && r.wrapped.handler == r.handler
    ensures NoDuplicates(all[id := r]) && OwnWrappers(all[id := r])
  {
  }

  /**
   * Where position `k` of the list of `e` was before position `i` of the
   * list of `element` was spliced out.
   */
  function Shifted(e: Element, element: Element, i: nat, k: nat): (j: nat)
    ensures j == k || (e == element && j == k + 1)
    ensures e == element ==> j != i
  {
    if e == element && k >= i then k + 1 else k
  }

  /** Every position of the lists after splicing position `i` of `element` out is an old position. */
  lemma SpliceShifts(lists: map<Element, seq<string>>, element: Element, i: nat)
    requires element in lists && i < |lists[element]|
    ensures var ids := lists[element];
            var lists' := lists[element := ids[..i] + ids[i + 1..]];
            forall e, k :: e in lists' && 0 <= k < |lists'[e]| ==>
              && e in lists && Shifted(e, element, i, k) < |lists[e]|
              && lists'[e][k] == lists[e][Shifted(e, element, i, k)]
  {
    var ids := lists[element];
    var rest := ids[..i] + ids[i + 1..];
    forall k | 0 <= k < |rest|
      ensures rest[k] == ids[Shifted(element, element, i, k)]
    {
      if k >= i {
        assert rest[k] == ids[i + 1..][k - i];
      }
    }
    var lists' := lists[element := rest];
    forall e, k | e in lists' && 0 <= k < |lists'[e]|
      ensures e in lists && Shifted(e, element, i, k) < |lists[e]|
      ensures lists'[e][k] == lists[e][Shifted(e, element, i, k)]
    {
      if e == element {
        assert lists'[e][k] == rest[k];
      }
    }
  }

  /** Splicing one id out keeps every id listed once. */
  lemma SpliceListedOnce(lists: map<Element, seq<string>>, element: Element, i: nat)
    requires ListedOnce(lists)
    requires element in lists && i < |lists[element]|
    ensures ListedOnce(lists[element := lists[element][..i] + lists[element][i + 1..]])
  {
    var lists' := lists[element := lists[element][..i] + lists[element][i + 1..]];
    SpliceShifts(lists, element, i);
    forall e1, k1, e2, k2 |
      e1 in lists' && e2 in lists' && 0 <= k1 < |lists'[e1]| && 0 <= k2 < |lists'[e2]| &&
      lists'[e1][k1] == lists'[e2][k2]
      ensures e1 == e2 && k1 == k2
    {
      assert lists[e1][Shifted(e1, element, i, k1)] == lists[e2][Shifted(e2, element, i, k2)];
    }
  }

  /** Deleting the record of the id at `i` and splicing that id out keeps every record listed under its element. */
  lemma SpliceListedUnder(all: map<string, Record>, lists: map<Element, seq<string>>, element: Element, i: nat)
    requires ListedOnce(lists) && ListedUnder(all, lists)
    requires element in lists && i < |lists[element]|
    ensures var ids := lists[element];
            ListedUnder(all - {ids[i]}, lists[element := ids[..i] + ids[i + 1..]])
  {
    var ids := lists[element];
    var all' := all - {ids[i]};
    var rest := ids[..i] + ids[i + 1..];
    var lists' := lists[element := rest];
    SpliceShifts(lists, element, i);
    forall y | y in all'
      ensures all'[y].element in lists' && y in lists'[all'[y].element]
    {
      var e := all[y].element;
      var j :| 0 <= j < |lists[e]| && lists[e][j] == y;
      if e == element {
        var k := if j < i then j else j - 1;
        assert j != i && rest[k] == y;
      } else {
        assert lists'[e][j] == y;
      }
    }
  }

  /** What `remove` does once `_find` has answered `i` keeps the invariant. */
  lemma RemoveRecord(counter: nat, all: map<string, Record>, lists: map<Element, seq<string>>,
                     attached: set<Attachment>, registered: bool, hooks: nat, element: Element, i: nat)
    requires Consistent(counter, all, lists, attached, registered, hooks)
    requires element in lists && i < |lists[element]| && lists[element][i] in all
    ensures var ids := lists[element];
            var r := all[ids[i]];
            Consistent(counter, all - {ids[i]}, lists[element := ids[..i] + ids[i + 1..]],
                       attached - {(r.element, "on" + r.eventType, r.wrapped)}, registered, hooks)
  {
    var ids := lists[element];
    var all' := all - {ids[i]};
    var lists' := lists[element := ids[..i] + ids[i + 1..]];
    SpliceShifts(lists, element, i);
    assert IdsSpent(counter, all', lists');
    SpliceListedOnce(lists, element, i);
    SpliceListedUnder(all, lists, element, i);
    assert NoDuplicates(all');
    assert OwnWrappers(all');
    AttachmentsRemove(all, ids[i]);
  }

  /** A non-negative answer of `_find` is a position whose record matches. */
  lemma ScanFound(ids: seq<string>, all: map<string, Record>, eventType: string, handler: Listener, i: int)
    requires 0 <= i && Scan(ids, all, eventType, handler) == At(i)
    ensures i < |ids| && ids[i] in all && Matches(all[ids[i]], eventType, handler)
  {
    ScanFindsLast(ids, all, eventType, handler);
  }

  /** Once the one matching record on `element` is deleted, none is left. */
  lemma OnlyMatch(all: map<string, Record>, id: string, element: Element, eventType: string, handler: Listener)
    requires NoDuplicates(all)
    requires id in all && all[id].element == element && Matches(all[id], eventType, handler)
    ensures forall y :: y in all - {id} && all[y].element == element ==> !Matches(all[y], eventType, handler)
  {
  }
}
