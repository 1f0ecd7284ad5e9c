/**
 * A model of `defineClass(data)` (base/defineClass.js): it builds a JavaScript
 * "class" -- a constructor function and the prototype object it is linked to --
 * from a descriptor naming a superclass, a constructor, instance methods,
 * statics, mixin classes to borrow methods from and classes whose methods the
 * result must provide.
 *
 * Abstractions:
 *  - a JavaScript value is a function object, a string or some other value;
 *  - a function object is a Dafny object with its declared arity (`length`),
 *    its `prototype` and its other own properties (the statics);
 *  - an object used as a prototype is a value: its own properties plus one
 *    map standing for everything it inherits through its prototype chain;
 *  - `for (p in obj)` visits the names of `obj`'s members in an order the
 *    model does not fix: the loops pick the next name with `:|`.
 */
module ClassBuilder {
  import opened Wrappers

  datatype Value = Fn(f: FunctionObject) | Str(s: string) | Other(id: nat)

  /** An object serving as a prototype: its own properties and the members it inherits. */
  datatype Prototype = Prototype(parent: map<string, Value>, own: map<string, Value>) {
    /** What `p in obj`, `obj[p]` and `for (p in obj)` see: own properties shadow inherited ones. */
    function Members(): map<string, Value> {
      parent + own
    }
  }

  /** A JavaScript function object. */
  class FunctionObject {
    /** The number of declared parameters. */
    const length: nat
    var prototype: Prototype
    /** Own properties other than `prototype` and `length`. */
    var props: map<string, Value>

    /** A new `function () { ... }` with `length` declared parameters and a default, memberless prototype. */
    constructor (length: nat)
      ensures this.length == length
      ensures prototype == Prototype(map[], map[]) && props == map[]
    {
      this.length := length;
      prototype := Prototype(map[], map[]);
      props := map[];
    }
  }

  /** The members a class's instances see through `c.prototype`. */
  function MembersOf(c: FunctionObject): map<string, Value>
    reads c
  {
    c.prototype.Members()
  }

  /** The member tables of a list of classes, in list order. */
  function Tables(cs: seq<FunctionObject>): (ts: seq<map<string, Value>>)
    reads set c | c in cs
    ensures |ts| == |cs|
    ensures forall k :: 0 <= k < |cs| ==> ts[k] == MembersOf(cs[k])
  {
    if cs == [] then [] else Tables(cs[..|cs| - 1]) + [MembersOf(cs[|cs| - 1])]
  }

  // ---------------------------------------------------------------------------
  // The descriptor
  // ---------------------------------------------------------------------------

  /** The `borrows` or `provides` field: missing (or falsy), an array of constructors, or one constructor. */
  datatype ClassList = Absent | Many(classes: seq<FunctionObject>) | One(single: FunctionObject)

  datatype Descriptor = Descriptor(
    name: Option<string>,
    extend: Option<FunctionObject>,
    construct: Option<FunctionObject>,
    methods: Option<map<string, Value>>,
    statics: Option<map<string, Value>>,
    borrows: ClassList,
    provided: ClassList)  // the `provides` field

  /** Why `defineClass` throws. */
  datatype BuildError =
    | UndefinedBorrow                              // `c.prototype` with `c` undefined (line 86)
    | NotProvided(classIndex: nat, member: string) // the check of lines 106-117

  /** The local `borrows`/`provides` array: `[]`, the array itself, or a one-element array. */
  function Normalize(l: ClassList): seq<FunctionObject> {
    match l
    case Absent => []
    case Many(cs) => cs
    case One(c) => [c]
  }

  /** JavaScript's truthiness of the `name` field: present and not the empty string. */
  predicate Truthy(name: Option<string>) {
    name.Some? && name.value != ""
  }

  /**
   * Statics JavaScript treats specially on a function object: assigning
   * `prototype` would replace the linked prototype, and `length` (and, in
   * engines that define it, `name`) is read-only, so assigning it is ignored.
   */
  predicate PlainStatics(statics: map<string, Value>) {
    "prototype" !in statics && "length" !in statics && "name" !in statics
  }

  // ---------------------------------------------------------------------------
  // Reading the borrowed classes as line 83 does
  // ---------------------------------------------------------------------------

  /** What `data.borrows[i]` yields: a class, or `undefined`. */
  datatype Slot = Class(c: FunctionObject) | Undefined

  /**
   * Line 83 indexes `data.borrows`, not the normalised `borrows`. For an array
   * that is its i-th class; for a lone constructor it is that function's
   * property "0", which the model takes to be missing: `undefined`.
   */
  function BorrowSlot(l: ClassList, i: nat): Slot
    requires i < |Normalize(l)|
  {
    match l
    case Many(cs) => Class(cs[i])
    case _ => Undefined
  }

  /** The classes of an array-valued list. */
  function ArrayClasses(l: ClassList): seq<FunctionObject> {
    if l.Many? then l.classes else []
  }

  /**
   * The tables the loop of lines 82-90 copies functions from, one per
   * iteration, or None when an iteration reads `undefined.prototype` and
   * throws.
   */
  function BorrowedTables(l: ClassList): Option<seq<map<string, Value>>>
    reads set c | c in ArrayClasses(l)
  {
    match l
    case Absent => Some([])
    case Many(cs) => Some(Tables(cs))
    case One(_) => None
  }

  /** Iteration i of the borrowing loop reads exactly the i-th table of `BorrowedTables`. */
  lemma SlotTable(l: ClassList, i: nat)
    requires i < |Normalize(l)|
    ensures BorrowSlot(l, i).Undefined? <==> BorrowedTables(l).None?
    ensures BorrowedTables(l).Some? ==>
      |BorrowedTables(l).value| == |Normalize(l)| &&
      BorrowSlot(l, i).Class? && BorrowedTables(l).value[i] == MembersOf(BorrowSlot(l, i).c)
  {
  }

  // ---------------------------------------------------------------------------
  // The prototype the build produces
  // ---------------------------------------------------------------------------

  /** The function-valued entries of a table: what `typeof ... == "function"` lets through. */
  function FunctionMembers(table: map<string, Value>): map<string, Value> {
    map p | p in table && table[p].Fn? :: table[p]
  }

  /** `own` after copying the functions of each table in turn. */
  function BorrowAll(own: map<string, Value>, tables: seq<map<string, Value>>): map<string, Value>
    decreases |tables|
  {
    if tables == [] then own
    else BorrowAll(own, tables[..|tables| - 1]) + FunctionMembers(tables[|tables| - 1])
  }

  /** The index of the last table holding a function named `p`, or -1 if none does. */
  function LastProvider(tables: seq<map<string, Value>>, p: string): (k: int)
    decreases |tables|
    ensures -1 <= k < |tables|
    ensures k >= 0 ==> p in tables[k] && tables[k][p].Fn?
    ensures forall j :: k < j < |tables| ==> !(p in tables[j] && tables[j][p].Fn?)
  {
    if tables == [] then -1
    else if p in tables[|tables| - 1] && tables[|tables| - 1][p].Fn? then |tables| - 1
    else LastProvider(tables[..|tables| - 1], p)
  }

  /** Later borrowed classes win: each name holds the function of the last class that has one. */
  lemma {:induction false} BorrowAllLastWins(own: map<string, Value>, tables: seq<map<string, Value>>, p: string)
    ensures var k := LastProvider(tables, p);
            var r := BorrowAll(own, tables);
            && (k >= 0 ==> p in r && r[p] == tables[k][p])
            && (k < 0 ==> (p in r <==> p in own) && (p in own ==> r[p] == own[p]))
    decreases |tables|
  {
    if tables != [] {
      BorrowAllLastWins(own, tables[..|tables| - 1], p);
    }
  }

  /** The reserved names lines 99-102 assign. */
  predicate Reserved(p: string, name: Option<string>) {
    p == "constructor" || p == "superclass" || (p == "classname" && Truthy(name))
  }

  /** Lines 99-102: `constructor`, `superclass`, and `classname` when the name is truthy. */
  function WithReserved(own: map<string, Value>, ctor: FunctionObject, superclass: FunctionObject,
                        name: Option<string>): map<string, Value>
  {
    var o := own["constructor" := Fn(ctor)]["superclass" := Fn(superclass)];
    if Truthy(name) then o["classname" := Str(name.value)] else o
  }

  /** The own properties of the new prototype when the build reaches the `provides` check. */
  function BuildOwn(tables: seq<map<string, Value>>, methods: map<string, Value>,
                    ctor: FunctionObject, superclass: FunctionObject, name: Option<string>): map<string, Value>
  {
    WithReserved(BorrowAll(map[], tables) + methods, ctor, superclass, name)
  }

  /**
   * Override order of the new prototype's own properties: reserved fields over
   * `methods` over later borrowed classes over earlier ones; a name none of
   * them supplies is not an own property (so neither a superclass member nor
   * a static ever is one).
   */
  lemma BuildOwnLookup(tables: seq<map<string, Value>>, methods: map<string, Value>,
                       ctor: FunctionObject, superclass: FunctionObject, name: Option<string>, p: string)
    ensures var r := BuildOwn(tables, methods, ctor, superclass, name);
            var k := LastProvider(tables, p);
            && (p in r <==> Reserved(p, name) || p in methods || k >= 0)
            && (p == "constructor" ==> r[p] == Fn(ctor))
            && (p == "superclass" ==> r[p] == Fn(superclass))
            && (p == "classname" && Truthy(name) ==> r[p] == Str(name.value))
            && (!Reserved(p, name) && p in methods ==> r[p] == methods[p])
            && (!Reserved(p, name) && p !in methods && k >= 0 ==> r[p] == tables[k][p])
  {
    BorrowAllLastWins(map[], tables, p);
  }

  // ---------------------------------------------------------------------------
  // The `provides` check
  // ---------------------------------------------------------------------------

  /** The members of a provided class that the check looks at: functions other than `constructor` and `superclass`. */
  predicate Checked(required: map<string, Value>, p: string) {
    p in required && required[p].Fn? && p != "constructor" && p != "superclass"
  }

  /** `view` has a function named `p` with the arity `required` declares for it. */
  predicate Supplies(view: map<string, Value>, required: map<string, Value>, p: string)
    requires Checked(required, p)
  {
    p in view && view[p].Fn? && view[p].f.length == required[p].f.length
  }

  ghost predicate ProvidesAll(view: map<string, Value>, required: map<string, Value>) {
    forall p :: Checked(required, p) ==> Supplies(view, required, p)
  }

  /** `view` conforms to every class of `required`. */
  ghost predicate ProvidesEvery(view: map<string, Value>, required: seq<map<string, Value>>) {
    forall k :: 0 <= k < |required| ==> ProvidesAll(view, required[k])
  }

  datatype Mismatch = Mismatch(classIndex: nat, member: string)

  /** `m` names the first class `view` does not conform to and a member it fails on. */
  ghost predicate FirstMismatch(view: map<string, Value>, required: seq<map<string, Value>>, m: Mismatch) {
    && m.classIndex < |required|
    && ProvidesEvery(view, required[..m.classIndex])
    && Checked(required[m.classIndex], m.member)
    && !Supplies(view, required[m.classIndex], m.member)
  }

  /**
   * Lines 106-117: stops at the first provided class that `view` does not
   * conform to, naming one of its members that `view` lacks or declares with
   * another arity.
   */
  method CheckProvides(view: map<string, Value>, required: seq<map<string, Value>>) returns (miss: Option<Mismatch>)
    ensures miss.None? <==> ProvidesEvery(view, required)
    ensures miss.Some? ==> FirstMismatch(view, required, miss.value)
  {
    var i := 0;
    while i < |required|
      invariant 0 <= i <= |required|
      invariant forall j :: 0 <= j < i ==> ProvidesAll(view, required[j])
    {
      var c := required[i];
      var todo := c.Keys;
      while todo != {}
        invariant todo <= c.Keys
        invariant forall p :: p in c && p !in todo && Checked(c, p) ==> Supplies(view, c, p)
        decreases todo
      {
        var p :| p in todo;
        if c[p].Fn? && p != "constructor" && p != "superclass" {
          if !(p in view && view[p].Fn? && view[p].f.length == c[p].f.length) {
            assert Checked(c, p) && !Supplies(view, c, p);
            return Some(Mismatch(i, p));
          }
        }
        todo := todo - {p};
      }
      i := i + 1;
    }
    return None;
  }

  // ---------------------------------------------------------------------------
  // The steps of the build
  // ---------------------------------------------------------------------------

  /** Lines 76-78: delete every own property of the freshly constructed prototype; inherited members stay. */
  method StripOwn(proto: Prototype) returns (stripped: Prototype)
    ensures stripped == Prototype(proto.parent, map[])
  {
    stripped := proto;
    var todo := proto.Members().Keys;
    while todo != {}
      invariant todo <= proto.Members().Keys
      invariant stripped.parent == proto.parent
      invariant stripped.own.Keys <= todo
      decreases todo
    {
      var p :| p in todo;
      if p in stripped.own {
        stripped := stripped.(own := stripped.own - {p});
      }
      todo := todo - {p};
    }
    assert stripped.own.Keys == {};
    assert stripped.own == map[];
  }

  /** Lines 86-89: copy the function members of one borrowed class's prototype. */
  method Borrow(own: map<string, Value>, table: map<string, Value>) returns (own': map<string, Value>)
    ensures own' == own + FunctionMembers(table)
  {
    own' := own;
    var todo := table.Keys;
    while todo != {}
      invariant todo <= table.Keys
      invariant forall p :: p in own' <==> p in own || (p in table && p !in todo && table[p].Fn?)
      invariant forall p :: p in own' ==>
                  own'[p] == if p in table && p !in todo && table[p].Fn? then table[p] else own[p]
      decreases todo
    {
      var p :| p in todo;
      if table[p].Fn? {
        own' := own'[p := table[p]];
      }
      todo := todo - {p};
    }
    assert own' == own + FunctionMembers(table);
  }

  /** One more iteration of the borrowing loop copies the functions of one more table. */
  lemma BorrowAllStep(own: map<string, Value>, tables: seq<map<string, Value>>, i: nat)
    requires i < |tables|
    ensures BorrowAll(own, tables[..i + 1]) == BorrowAll(own, tables[..i]) + FunctionMembers(tables[i])
  {
    assert tables[..i + 1][..i] == tables[..i];
  }

  /**
   * Lines 82-90: for each borrowed class in list order, copy its functions
   * over `own`; None when an iteration finds `undefined` and throws.
   */
  method BorrowClasses(l: ClassList, own: map<string, Value>) returns (borrowed: Option<map<string, Value>>)
    ensures old(BorrowedTables(l)).None? ==> borrowed == None
    ensures old(BorrowedTables(l)).Some? ==> borrowed == Some(BorrowAll(own, old(BorrowedTables(l)).value))
  {
    ghost var tables := BorrowedTables(l);
    var borrows := Normalize(l);
    borrowed := Some(own);
    var i := 0;
    while i < |borrows|
      invariant 0 <= i <= |borrows|
      invariant tables.None? ==> i == 0
      invariant tables.Some? ==> |tables.value| == |borrows| && borrowed == Some(BorrowAll(own, tables.value[..i]))
    {
      var slot := BorrowSlot(l, i);
      SlotTable(l, i);
      if slot.Undefined? {
        return None;
      }
      var table := MembersOf(slot.c);
      BorrowAllStep(own, tables.value, i);
      var next := Borrow(borrowed.value, table);
      borrowed := Some(next);
      i := i + 1;
    }
    assert tables.Some? ==> tables.value[..i] == tables.value;
  }

  /** Line 95: copy every entry of `methods`, overwriting what was borrowed. */
  method Overlay(own: map<string, Value>, methods: map<string, Value>) returns (own': map<string, Value>)
    ensures own' == own + methods
  {
    own' := own;
    var todo := methods.Keys;
    while todo != {}
      invariant todo <= methods.Keys
      invariant own' == own + (map p | p in methods && p !in todo :: methods[p])
      decreases todo
    {
      var p :| p in todo;
      own' := own'[p := methods[p]];
      todo := todo - {p};
    }
    assert (map p | p in methods && p !in todo :: methods[p]) == methods;
  }

  /** Line 126: every static becomes an own property of the constructor; its prototype is not touched. */
  method CopyStatics(ctor: FunctionObject, statics: map<string, Value>)
    requires PlainStatics(statics)
    modifies ctor
    ensures ctor.props == old(ctor.props) + statics
    ensures ctor.prototype == old(ctor.prototype)
  {
    var todo := statics.Keys;
    while todo != {}
      invariant todo <= statics.Keys
      invariant ctor.props == old(ctor.props) + (map p | p in statics && p !in todo :: statics[p])
      invariant ctor.prototype == old(ctor.prototype)
      decreases todo
    {
      var p :| p in todo;
      ctor.props := ctor.props[p := statics[p]];
      todo := todo - {p};
    }
    assert (map p | p in statics && p !in todo :: statics[p]) == statics;
  }

  /** Line 52: the superclass, `Object` when `extend` is missing. */
  function SuperclassOf(data: Descriptor, objectCtor: FunctionObject): FunctionObject {
    data.extend.GetOr(objectCtor)
  }

  /**
   * What lines 73-117 produce, given the borrowed tables as the borrowing loop
   * reads them, the tables of the provided classes, the members the
   * superclass's prototype offers and the constructor: the failure to read a
   * borrowed class, the first failed `provides` check, or the prototype.
   */
  ghost predicate BuildsAs(r: Result<Prototype, BuildError>, tables: Option<seq<map<string, Value>>>,
                           required: seq<map<string, Value>>, inherited: map<string, Value>,
                           data: Descriptor, superclass: FunctionObject, ctor: FunctionObject)
  {
    match tables
    case None => r == Err(UndefinedBorrow)
    case Some(ts) =>
      var proto := Prototype(inherited, BuildOwn(ts, data.methods.GetOr(map[]), ctor, superclass, data.name));
      && (r.Ok? <==> ProvidesEvery(proto.Members(), required))
      && (r.Ok? ==> r.value == proto)
      && (r.Err? ==> r.error.NotProvided? &&
                     FirstMismatch(proto.Members(), required, Mismatch(r.error.classIndex, r.error.member)))
  }

  /**
   * Lines 73-117: create the prototype from `new superclass()` (which left
   * `constructed` as own properties), strip it, borrow, copy the methods, set
   * the reserved fields and run the `provides` check.
   */
  method BuildPrototype(data: Descriptor, superclass: FunctionObject, ctor: FunctionObject,
                        constructed: map<string, Value>) returns (r: Result<Prototype, BuildError>)
    ensures BuildsAs(r, old(BorrowedTables(data.borrows)), old(Tables(Normalize(data.provided))),
                     old(MembersOf(superclass)), data, superclass, ctor)
  {
    ghost var tables := BorrowedTables(data.borrows);
    var inherited := MembersOf(superclass);
    // The member tables of the provided classes, which lines 106-117 read;
    // nothing the build does before the check changes them.
    var required := Tables(Normalize(data.provided));

    // Lines 73-78: a new instance of the superclass, stripped of its own properties.
    var proto := StripOwn(Prototype(inherited, constructed));

    // Lines 82-90: borrow the functions of each class in turn.
    var borrowed := BorrowClasses(data.borrows, proto.own);
    if borrowed.None? {
      r := Err(UndefinedBorrow);
      assert BuildsAs(r, tables, required, inherited, data, superclass, ctor);
      return;
    }

    // Line 95: the instance methods.
    var own := Overlay(borrowed.value, data.methods.GetOr(map[]));
    // Lines 99-102: the reserved fields.
    own := own["constructor" := Fn(ctor)]["superclass" := Fn(superclass)];
    if Truthy(data.name) {
      own := own["classname" := Str(data.name.value)];
    }
    proto := proto.(own := own);
    assert proto == Prototype(inherited, BuildOwn(tables.value, data.methods.GetOr(map[]), ctor, superclass, data.name));

    // Lines 106-117: the `provides` check.
    var miss := CheckProvides(proto.Members(), required);
    if miss.Some? {
      r := Err(NotProvided(miss.value.classIndex, miss.value.member));
      assert BuildsAs(r, tables, required, inherited, data, superclass, ctor);
      return;
    }
    r := Ok(proto);
    assert BuildsAs(r, tables, required, inherited, data, superclass, ctor);
  }

  /**
   * `defineClass(data)`. `objectCtor` is the global `Object`; `constructed` is
   * what `new superclass()` leaves as own properties of the new object (the
   * superclass constructor is not modelled). The ghost `ctor` names the
   * constructor function: `data.construct`, or a new empty function.
   * Nothing is linked or copied onto the constructor unless the build succeeds.
   */
  method DefineClass(data: Descriptor, objectCtor: FunctionObject, constructed: map<string, Value>)
    returns (r: Result<FunctionObject, BuildError>, ghost ctor: FunctionObject)
    requires data.statics.Some? ==> PlainStatics(data.statics.value)
    modifies if data.construct.Some? then {data.construct.value} else {}
    ensures data.construct.Some? ==> ctor == data.construct.value
    ensures data.construct.None? ==> fresh(ctor) && ctor.length == 0
    ensures data.construct.Some? && r.Err? ==> unchanged(data.construct.value)
    ensures var superclass := SuperclassOf(data, objectCtor);
            BuildsAs(if r.Ok? then Ok(ctor.prototype) else Err(r.error),
                     old(BorrowedTables(data.borrows)), old(Tables(Normalize(data.provided))),
                     old(MembersOf(superclass)), data, superclass, ctor)
    ensures r.Ok? ==>
      && r.value == ctor
      && ctor.props == (if data.construct.Some? then old(data.construct.value.props) else map[])
                       + data.statics.GetOr(map[])
  {
    // Lines 51-55: the defaults.
    var superclass := SuperclassOf(data, objectCtor);
    ghost var tables := BorrowedTables(data.borrows);
    ghost var required := Tables(Normalize(data.provided));
    ghost var inherited := MembersOf(superclass);
    var fn: FunctionObject;
    if data.construct.Some? {
      fn := data.construct.value;
    } else {
      fn := new FunctionObject(0);
      assert BorrowedTables(data.borrows) == tables;
      assert Tables(Normalize(data.provided)) == required;
    }
    ctor := fn;

    var proto := BuildPrototype(data, superclass, fn, constructed);
    assert BuildsAs(proto, tables, required, inherited, data, superclass, fn);
    if proto.Err? {
      return Err(proto.error), fn;
    }

    // Lines 122-130: link the prototype, copy the statics, return the constructor.
    fn.prototype := proto.value;
    CopyStatics(fn, data.statics.GetOr(map[]));
    return Ok(fn), fn;
  }

  // ---------------------------------------------------------------------------
  // Properties of the build as a whole
  // ---------------------------------------------------------------------------

  /** The build is a function of what it reads: two outcomes for the same inputs agree on success and on the prototype. */
  lemma BuildsAsDeterministic(r1: Result<Prototype, BuildError>, r2: Result<Prototype, BuildError>,
                              tables: Option<seq<map<string, Value>>>, required: seq<map<string, Value>>,
                              inherited: map<string, Value>, data: Descriptor,
                              superclass: FunctionObject, ctor: FunctionObject)
    requires BuildsAs(r1, tables, required, inherited, data, superclass, ctor)
    requires BuildsAs(r2, tables, required, inherited, data, superclass, ctor)
    ensures r1.Ok? == r2.Ok?
    ensures r1.Ok? ==> r1 == r2
    ensures r1 == Err(UndefinedBorrow) <==> r2 == Err(UndefinedBorrow)
  {
  }

  /** A descriptor with nothing to borrow and no methods gives a prototype whose own properties are the reserved fields alone. */
  lemma BareDescriptorOwn(ctor: FunctionObject, superclass: FunctionObject, name: Option<string>)
    ensures BuildOwn([], map[], ctor, superclass, name).Keys ==
            {"constructor", "superclass"} + (if Truthy(name) then {"classname"} else {})
  {
  }

  /** The descriptor `{name: "Circle", extend: Shape, methods: {area: ...}, borrows: [Colorable], provides: [provided]}`. */
  function CircleData(shape: FunctionObject, area: FunctionObject, colorable: FunctionObject,
                      provided: FunctionObject): Descriptor
  {
    Descriptor(Some("Circle"), Some(shape), None, Some(map["area" := Fn(area)]), None,
               Many([colorable]), Many([provided]))
  }

  /**
   * `Circle` extends `Shape` (whose prototype offers `area()`), overrides
   * `area`, borrows `setColor(c)` from `Colorable` and claims to provide
   * `Colorable`: the build succeeds and the prototype offers both methods.
   * The tables are the member tables of `Shape` and `Colorable` as the build
   * reads them (`MembersOf`, `BorrowedTables`, `Tables`).
   */
  lemma CircleProvidesColorable(r: Result<Prototype, BuildError>, shape: FunctionObject, shapeArea: FunctionObject,
                                area: FunctionObject, colorable: FunctionObject, setColor: FunctionObject,
                                ctor: FunctionObject)
    requires area.length == 0 && setColor.length == 1
    requires BuildsAs(r, Some([map["setColor" := Fn(setColor)]]), [map["setColor" := Fn(setColor)]],
                      map["area" := Fn(shapeArea)], CircleData(shape, area, colorable, colorable), shape, ctor)
    ensures r.Ok?
    ensures r.value.Members()["area"] == Fn(area) && r.value.Members()["setColor"] == Fn(setColor)
  {
    var colorableTable := map["setColor" := Fn(setColor)];
    var own := BuildOwn([colorableTable], map["area" := Fn(area)], ctor, shape, Some("Circle"));
    BuildOwnLookup([colorableTable], map["area" := Fn(area)], ctor, shape, Some("Circle"), "setColor");
    BuildOwnLookup([colorableTable], map["area" := Fn(area)], ctor, shape, Some("Circle"), "area");
    var view := Prototype(map["area" := Fn(shapeArea)], own).Members();
    assert ProvidesAll(view, colorableTable);
    assert ProvidesEvery(view, [colorableTable]);
  }

  /**
   * As written, a lone borrowed constructor (`borrows: C`) makes the build
   * throw, although line 63 wraps it into a one-element list and the
   * descriptor documents "a constructor or an array"; the array form
   * `borrows: [C]` (with nothing to provide) succeeds and copies every
   * function member of `C` that neither `methods` nor a reserved field
   * overrides.
   */
  lemma LoneBorrowThrows(r1: Result<Prototype, BuildError>, r2: Result<Prototype, BuildError>, f: FunctionObject,
                         required: seq<map<string, Value>>, inherited: map<string, Value>, data: Descriptor,
                         superclass: FunctionObject, ctor: FunctionObject, p: string)
    requires BuildsAs(r1, BorrowedTables(One(f)), required, inherited, data.(borrows := One(f)), superclass, ctor)
    requires BuildsAs(r2, BorrowedTables(Many([f])), [], inherited, data.(borrows := Many([f])), superclass, ctor)
    ensures r1 == Err(UndefinedBorrow)
    ensures r2.Ok?
    ensures p in MembersOf(f) && MembersOf(f)[p].Fn? && !Reserved(p, data.name) && p !in data.methods.GetOr(map[]) ==>
              p in r2.value.own && r2.value.own[p] == MembersOf(f)[p]
  {
    assert Tables([f]) == [MembersOf(f)];
    BuildOwnLookup([MembersOf(f)], data.methods.GetOr(map[]), ctor, superclass, data.name, p);
  }

  /**
   * A provided class with a single checked member that the prototype lacks
   * (or declares with another arity) makes the build fail, naming that member.
   */
  lemma SoleMemberMismatch(r: Result<Prototype, BuildError>, tables: seq<map<string, Value>>,
                           required: map<string, Value>, inherited: map<string, Value>, data: Descriptor,
                           superclass: FunctionObject, ctor: FunctionObject, m: string)
    requires required.Keys == {m} && Checked(required, m)
    requires !Supplies(Prototype(inherited, BuildOwn(tables, data.methods.GetOr(map[]), ctor, superclass, data.name))
                         .Members(), required, m)
    requires BuildsAs(r, Some(tables), [required], inherited, data, superclass, ctor)
    ensures r == Err(NotProvided(0, m))
  {
    var view := Prototype(inherited, BuildOwn(tables, data.methods.GetOr(map[]), ctor, superclass, data.name)).Members();
    assert !ProvidesAll(view, required);
    assert [required][0] == required;
    assert !ProvidesEvery(view, [required]);
  }

  /**
   * The same `Circle`, claiming to provide a `Colorable2` whose
   * `setColor(c, opts)` takes two parameters: the build fails, naming
   * `setColor` of the first provided class.
   */
  lemma CircleLacksColorable2(r: Result<Prototype, BuildError>, shape: FunctionObject, shapeArea: FunctionObject,
                              area: FunctionObject, colorable: FunctionObject, setColor: FunctionObject,
                              colorable2: FunctionObject, setColor2: FunctionObject, ctor: FunctionObject)
    requires setColor.length == 1 && setColor2.length == 2
    requires BuildsAs(r, Some([map["setColor" := Fn(setColor)]]), [map["setColor" := Fn(setColor2)]],
                      map["area" := Fn(shapeArea)], CircleData(shape, area, colorable, colorable2), shape, ctor)
    ensures r == Err(NotProvided(0, "setColor"))
  {
    var colorableTable := map["setColor" := Fn(setColor)];
    BuildOwnLookup([colorableTable], map["area" := Fn(area)], ctor, shape, Some("Circle"), "setColor");
    SoleMemberMismatch(r, [colorableTable], map["setColor" := Fn(setColor2)], map["area" := Fn(shapeArea)],
                       CircleData(shape, area, colorable, colorable2), shape, ctor, "setColor");
  }
}
