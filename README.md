# defineClass and the Internet Explorer handler registry, in Dafny

This project models two pieces of a small JavaScript browser-utility
collection and proves properties of them.

- `defineClass(data)` (`base/defineClass.js`) builds a "class": a constructor
  function and the prototype object linked to it. The descriptor names a
  superclass (`extend`), a constructor (`construct`), instance `methods`,
  `statics`, mixin classes to `borrows` functions from, and classes the
  result `provides` (checked by member name and arity). The model is
  `class_builder.dfy` (module `ClassBuilder`). A function object is a Dafny
  object with its arity (`length`), its `prototype` and its other own
  properties. A prototype is a value: its own properties plus one map that
  stands for everything it inherits. The prototype under construction is
  reassigned step by step by methods whose loops follow the source's loops.
  The constructor's `prototype` and statics are updated in place.
- The Internet Explorer branch of `Handler` (`base/Event.js`) records every
  wrapper that `add` registers with `attachEvent`, so that `remove` and the
  window's unload hook can find and detach it again. `handler_registry.dfy`
  (module `HandlerRegistry`) holds the records, the ids `_uid` hands out, the
  backward search of `_find` and the registry invariant with the lemmas that
  each step keeps it. `handler.dfy` (module `Handler`) holds the class
  `Registry`, whose fields are `Handler._counter`, `w._allHandlers`, the
  `element._handlers` lists and `w._onunloadHandlerRegistered`. Its methods
  are `add`, `remove`, `_find`, `_uid` and `_removeAllHandlers`. What
  `attachEvent`/`detachEvent` hold is a ghost set of
  (element, "on" + type, wrapper) triples.
- `wrappers.dfy` (module `Wrappers`) defines `Option` and `Result`.

The registry invariant (`HandlerRegistry.Consistent`) says:
- no recorded or listed id is one `_uid` will hand out later;
- every id is listed once, under the element of its record;
- every record is listed;
- at most one record exists per (element, event type, handler);
- every record has its own wrapper;
- the attached set is exactly the recorded wrappers;
- the unload hook is attached once if and only if the flag is set.

## Model

| member | source | states |
|---|---|---|
| `ClassBuilder.Normalize` | base/defineClass.js:61-69 | definition of the local `borrows`/`provides` array: empty for a missing field, the array itself, or a one-element array around a lone constructor |
| `ClassBuilder.BorrowSlot` | base/defineClass.js:83 | definition of what `data.borrows[i]` reads: the i-th class of an array, `undefined` for a lone constructor |
| `ClassBuilder.SuperclassOf` | base/defineClass.js:52 | definition of the superclass: `extend`, or `Object` when it is missing |
| `ClassBuilder.WithReserved` | base/defineClass.js:99-102 | definition of the reserved fields: `constructor` and `superclass` always, `classname` only for a truthy name |
| `ClassBuilder.FunctionObject.constructor` | base/defineClass.js:53 | a new empty function declares the given number of parameters, has a memberless prototype and no own properties |
| `ClassBuilder.SlotTable` | base/defineClass.js:82-86 | iteration i of the borrowing loop reads `undefined` exactly when the borrow list is a lone constructor; otherwise it reads the members of the i-th borrowed class |
| `ClassBuilder.LoneBorrowThrows` | base/defineClass.js:61-102 | a build whose `borrows` is a lone constructor fails with `UndefinedBorrow`, while the same build with `borrows: [C]` and nothing to provide succeeds and owns every function member of `C` that no reserved field and no entry of `methods` overrides, with `C`'s value |
| `ClassBuilder.BorrowAllLastWins` | base/defineClass.js:82-90 | after borrowing, a name holds the function of the last borrowed class that has one; a name no class supplies keeps its earlier value |
| `ClassBuilder.BuildOwnLookup` | base/defineClass.js:82-102 | override order of the new prototype's own properties: reserved fields over `methods` over later mixins over earlier ones; no other name is an own property; `classname` only for a truthy name |
| `ClassBuilder.CheckProvides` | base/defineClass.js:106-117 | no mismatch is reported exactly when the prototype conforms to every provided class; a reported mismatch names the first class that does not conform and a function member (not `constructor` or `superclass`) that is missing or has another arity |
| `ClassBuilder.StripOwn` | base/defineClass.js:76-78 | every own property is deleted and the inherited members stay |
| `ClassBuilder.Borrow` | base/defineClass.js:86-89 | the function members of one borrowed class are copied over the prototype, and nothing else is |
| `ClassBuilder.BorrowClasses` | base/defineClass.js:82-90 | the borrowed classes are copied in list order (the result is `BorrowAll`); the build fails when an iteration reads `undefined` |
| `ClassBuilder.Overlay` | base/defineClass.js:95 | every entry of `methods` overwrites whatever the prototype held under that name |
| `ClassBuilder.CopyStatics` | base/defineClass.js:126 | for statics not named `prototype`, `length` or `name`, every static becomes an own property of the constructor, overriding an earlier one of the same name; the constructor's prototype is not touched |
| `ClassBuilder.BuildPrototype` | base/defineClass.js:73-117 | the outcome is the borrow failure, or the first failed `provides` check, or the prototype that inherits the superclass's members and owns the reserved fields, `methods` and the borrowed functions |
| `ClassBuilder.DefineClass` | base/defineClass.js:51-130 | applies the defaults (`Object`, a new empty function, empty `methods`/`statics`). On success it returns the constructor, linked to the built prototype, with the statics added to its own properties. On failure the constructor is left unchanged |
| `ClassBuilder.BuildsAsDeterministic` | base/defineClass.js:73-117 | two builds from the same inputs agree on success and on the prototype they produce |
| `ClassBuilder.BareDescriptorOwn` | base/defineClass.js:95-102 | with no borrows and no methods, the prototype owns only `constructor`, `superclass` and, for a truthy name, `classname` |
| `ClassBuilder.CircleProvidesColorable` | base/defineClass.js:82-117 | a class extending `Shape`, overriding `area` and borrowing `setColor(c)` from `Colorable` provides `Colorable`; its prototype offers both methods. The classes are given by the member tables the build reads |
| `ClassBuilder.SoleMemberMismatch` | base/defineClass.js:106-117 | a provided class whose one checked member the prototype lacks, or declares with another arity, makes the build fail naming that member of class 0 |
| `ClassBuilder.CircleLacksColorable2` | base/defineClass.js:106-117 | the same class claiming to provide a `Colorable2` whose `setColor` takes two parameters fails, naming `setColor` of the first provided class |
| `HandlerRegistry.Uid` | base/Event.js:293 | definition of the id handed out at counter n: `"h"` followed by the decimal digits of n |
| `HandlerRegistry.Scan` | base/Event.js:235-249 | definition of the backward search over an element's ids; its meaning is stated by `ScanFindsLast` |
| `HandlerRegistry.DecimalInjective` | base/Event.js:293 | distinct counter values have distinct decimal strings |
| `HandlerRegistry.UidInjective` | base/Event.js:293 | distinct counter values give distinct ids `"h" + n` |
| `HandlerRegistry.IssuedIsSpent` | base/Event.js:291-293 | an id handed out at counter n is never handed out again once the counter has passed n |
| `HandlerRegistry.ScanFindsLast` | base/Event.js:235-249 | the backward search returns the greatest index whose record matches type and handler, provided every later id has a record. It returns -1 exactly when every id has a record and none matches. It throws exactly when it reaches an id without a record first |
| `HandlerRegistry.ScanFound` | base/Event.js:235-245 | a non-negative answer is a position whose record matches |
| `HandlerRegistry.AttachmentsAdd` | base/Event.js:81 | recording a new id adds exactly its attachment |
| `HandlerRegistry.AttachmentsRemove` | base/Event.js:193 | deleting a record removes exactly its attachment |
| `HandlerRegistry.DropRecord` | base/Event.js:273-281 | detaching a record's wrapper and deleting the record keeps the invariant |
| `HandlerRegistry.NewIdSpent` | base/Event.js:133 | the next id is neither recorded nor listed, and the invariant's freshness part survives the increment |
| `HandlerRegistry.AppendSpent` | base/Event.js:133-145 | recording and listing the next id, then advancing the counter, keeps every id spent |
| `HandlerRegistry.AppendListedOnce` | base/Event.js:143-145 | pushing an id no list holds keeps every id listed once |
| `HandlerRegistry.AppendListedUnder` | base/Event.js:137-145 | recording a new id and pushing it on its element's list keeps every record listed under its element |
| `HandlerRegistry.NotFoundUnmatched` | base/Event.js:18 | when `_find` answers -1, no record on the element registers that handler for that type |
| `HandlerRegistry.AddRecord` | base/Event.js:81-159 | what `add` does after `_find` answered -1 keeps the invariant, and the new id is fresh |
| `HandlerRegistry.SpliceShifts` | base/Event.js:197 | after the splice, position k of a list is old position k, or k + 1 at or past the spliced index |
| `HandlerRegistry.SpliceListedOnce` | base/Event.js:197 | splicing an id out keeps every id listed once |
| `HandlerRegistry.SpliceListedUnder` | base/Event.js:197-201 | splicing an id out and deleting its record keeps every remaining record listed under its element |
| `HandlerRegistry.RemoveRecord` | base/Event.js:191-201 | what `remove` does after `_find` answered an index keeps the invariant |
| `HandlerRegistry.OnlyMatch` | base/Event.js:169-201 | once the one matching record on the element is deleted, no matching record is left |
| `Handler.Registry.constructor` | base/Event.js:291 | a window before any registration: counter 0, no records, no lists, no hook, nothing attached; the invariant holds |
| `Handler.Registry.Lookup` | base/Event.js:211-249 | definition of what `_find` yields in a state: -1 for an element without a list, otherwise `Scan` over its ids |
| `Handler.Registry.LookupFindsRegistered` | base/Event.js:211-249 | under the invariant, `_find` answers -1 only when no record registers the triple and a non-negative index only when one does |
| `Handler.Registry.NextUid` | base/Event.js:293 | `_uid` returns `"h" + counter` and increments the counter |
| `Handler.Registry.Find` | base/Event.js:211-251 | -1 for an element without a list; otherwise the backward search `Scan` over the element's ids |
| `Handler.Registry.Add` | base/Event.js:17-161 | a triple `_find` locates leaves everything unchanged, and a TypeError from `_find` propagates. Otherwise a fresh wrapper is recorded under the new id, that id is pushed on the element's list and the wrapper is attached. The counter advances, the hook is attached once and the invariant is kept. Afterwards the triple is registered |
| `Handler.Registry.Attach` | base/Event.js:81-159 | the new state after `_find` answered -1: one new record under `"h" + counter`, one id pushed, one triple attached, the hook flag set with one hook |
| `Handler.Registry.Remove` | base/Event.js:165-203 | an unregistered triple leaves everything unchanged, and a TypeError from `_find` propagates. Otherwise exactly index i is spliced out of the element's list, exactly that id is deleted and exactly its wrapper is detached. The invariant is kept, and afterwards the triple is not registered |
| `Handler.Registry.Unlist` | base/Event.js:185-201 | detaches the wrapper recorded under the i-th id, splices that id out and deletes its record, keeping the invariant |
| `Handler.Registry.RemoveAll` | base/Event.js:255-285 | every recorded wrapper is detached and the record map is left empty; the elements' lists, the counter and the flag are untouched; the invariant is kept |
| `Handler.Registry.DetachRecord` | base/Event.js:273-281 | one round of the unload loop: the record's wrapper is detached and the record deleted |

## Left out

- The W3C branch of `Handler` (`addEventListener`/`removeEventListener`) is one-line delegation to the browser.
- The body of `wrappedHandler` is not modelled: the IE event-object translation and the `Function.call` fallback are browser plumbing. A wrapper is an opaque new object.
- The real `attachEvent`/`detachEvent` are not modelled. They become a ghost set of attachments.
- `document.parentWindow` resolution is not modelled: the model has a single window. `w._allHandlers` is empty until `add` first creates it.
- Elements and user handler functions are opaque numbers, compared by identity as `==` compares functions.
- `Handler.Registry.Find`: the TypeError from reading a deleted record (a stale id left in an element's list after the unload hook ran) is the outcome `Throws`, not an exception.
- `ClassBuilder.DefineClass`: running the superclass constructor in `new superclass()` is not modelled. What it leaves as own properties is a parameter, and those are deleted anyway.
- The prototype chain is collapsed into one map of inherited members, read when the build starts. Later changes to the superclass's prototype are not propagated.
- The order in which `for (p in obj)` visits names is not fixed. The loops pick the next name arbitrarily.
- `ClassBuilder.CheckProvides`: because visit order is not fixed, it names *some* failing member of the first non-conforming class, where the engine names the first one in its own order.
- `ClassBuilder.DefineClass`: the error message text (with `classname` and `c.classname`) is not modelled. The failure is `NotProvided(class index, member)`, or `UndefinedBorrow` for the TypeError of reading `undefined.prototype`.
- `ClassBuilder.DefineClass`: requires that no static is named `prototype`, `length` or `name`. Assigning `prototype` on a function object replaces the linked prototype, and assigning `length` (or `name`, in engines where it is a read-only property of functions) is ignored; neither effect is modelled.
- `ClassBuilder.CopyStatics`: carries the same requirement, for the same reason.
- `ClassBuilder.SlotTable`: assumes a lone borrowed constructor has no property `"0"`. For `borrows: C`, line 83 reads `C[0]`; if `C` had such a property (a static named `"0"`, say), the engine would borrow from whatever it holds instead of throwing.
- `ClassBuilder.BuildPrototype`: every property is treated as enumerable. The members `in` finds (line 113) and the names `for (p in ...)` visits (lines 77, 86, 95, 108) are the same map, so a non-enumerable built-in such as `Object.prototype.toString`, which `in` finds but `for...in` skips, is not modelled.
- Values other than functions and strings are opaque. A descriptor field is "missing" when it is absent or falsy.
- The `name` field is a string or missing. A truthy non-string name is not modelled.
- `borrows[i] = c` (line 84) writes back the value just read and changes nothing observable in the model.
- `Handler.Registry.NextUid`: the counter is an unbounded natural. In the engine `Handler._counter` is a double: from 2^53 on `++` no longer changes it, so `_uid` hands out the same id again, and from 10^21 on `"h" + n` is written in exponent form. Id freshness (`IssuedIsSpent`, `Consistent`) holds only below those bounds.
- `Handler.Registry.RemoveAll`: the loop variable `id` of line 269 is undeclared, so every unload also assigns a global `id`; that global is not modelled.
- Interleaving with other scripts and unload events firing in the middle of `add` or `remove` are not modelled: everything is single-threaded.
