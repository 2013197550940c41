/** Update actions and update paths (`ActionsForType`, `ActionValue` and
    `Updates` in src/types.ts): which atomic actions a leaf admits, what value
    each action carries, and the dotted keys an update object may use. */
module Updates {
  import opened Schema

  /** The operations of an update action, with the wire names below. */
  datatype ActionType = Set | Trim | Increment | Append | Prepend

  function OperationName(a: ActionType): (s: string)
    ensures s != []
  {
    match a
    case Set => "set"
    case Trim => "trim"
    case Increment => "increment"
    case Append => "append"
    case Prepend => "prepend"
  }

  lemma OperationNamesDistinct(a: ActionType, b: ActionType)
    requires OperationName(a) == OperationName(b)
    ensures a == b
  {
  }

  /** The action chosen for one member of the leaf's type: `number` gives
      Increment, an array Append and Prepend, `undefined` Trim, the rest none. */
  function ActionsFor(c: Constituent): set<ActionType>
  {
    match c
    case Of(Num) => {Increment}
    case Of(Arr(_)) => {Append, Prepend}
    case Undefined => {Trim}
    case Of(_) => {}
  }

  /** `ActionsForType<T>`: the conditional distributes over the members of `T`. */
  function ActionsForType(t: Ty): (r: set<ActionType>)
    ensures Set !in r
    ensures Trim in r <==> t.optional
  {
    var r := set c, a | c in Constituents(t) && a in ActionsFor(c) :: a;
    assert t.optional ==> Trim in ActionsFor(Undefined);
    assert Trim in r ==> t.optional by {
      if Trim in r {
        var c :| c in Constituents(t) && Trim in ActionsFor(c);
      }
    }
    r
  }

  /** Increment only on numbers, Append and Prepend only on arrays, Trim only
      on fields that may be `undefined`, and Set never. */
  lemma ActionsForTypeIff(t: Ty, a: ActionType)
    ensures a in ActionsForType(t) <==>
      (a == Increment && t.kind.Num?)
      || ((a == Append || a == Prepend) && t.kind.Arr?)
      || (a == Trim && t.optional)
  {
    if a in ActionsForType(t) {
      var c :| c in Constituents(t) && a in ActionsFor(c);
    }
    if a == Increment && t.kind.Num? { assert a in ActionsFor(Of(t.kind)); }
    if (a == Append || a == Prepend) && t.kind.Arr? { assert a in ActionsFor(Of(t.kind)); }
    if a == Trim && t.optional { assert a in ActionsFor(Undefined); }
  }

  /** The leaf categories one by one: a `number` admits only Increment, an
      array only Append and Prepend, a required string or boolean nothing. */
  lemma ActionsByCategory(elem: Kind)
    ensures ActionsForType(NumberTy) == {Increment}
    ensures ActionsForType(Ty(Arr(elem), false)) == {Append, Prepend}
    ensures ActionsForType(StringTy) == {}
    ensures ActionsForType(Ty(Bool, false)) == {}
    ensures ActionsForType(Ty(Num, true)) == {Increment, Trim}
  {
    forall a ensures a in ActionsForType(NumberTy) <==> a == Increment {
      ActionsForTypeIff(NumberTy, a);
    }
    forall a ensures a in ActionsForType(Ty(Arr(elem), false)) <==> a == Append || a == Prepend {
      ActionsForTypeIff(Ty(Arr(elem), false), a);
    }
    forall a ensures a !in ActionsForType(StringTy) {
      ActionsForTypeIff(StringTy, a);
    }
    forall a ensures a !in ActionsForType(Ty(Bool, false)) {
      ActionsForTypeIff(Ty(Bool, false), a);
    }
    forall a ensures a in ActionsForType(Ty(Num, true)) <==> a == Increment || a == Trim {
      ActionsForTypeIff(Ty(Num, true), a);
    }
  }

  /** The payload type for one member `c` of the leaf's type. */
  function PayloadFor(c: Constituent, a: ActionType): set<Constituent>
  {
    match c
    case Of(Arr(u)) => if a == Append || a == Prepend then {c, Of(u)} else {c}
    case _ => {c}
  }

  /** `ActionValue<T, A>`: Trim carries `undefined`; otherwise the conditional
      distributes over the members of `T`, and Append or Prepend on an array
      of `U` carries the array or a single `U`. */
  function ActionValue(t: Ty, a: ActionType): (r: set<Constituent>)
    requires a in ActionsForType(t)
    ensures a != Trim ==> Constituents(t) <= r
    ensures a != Trim ==> (Undefined in r <==> t.optional)
  {
    if a == Trim then {Undefined}
    else
      var r := set c, v | c in Constituents(t) && v in PayloadFor(c, a) :: v;
      assert forall c :: c in Constituents(t) ==> c in PayloadFor(c, a);
      r
  }

  /** What each admitted action carries, stated against the leaf's own type. */
  lemma ActionValueIff(t: Ty, a: ActionType)
    requires a in ActionsForType(t)
    ensures a == Trim ==> ActionValue(t, a) == {Undefined}
    ensures (a == Append || a == Prepend) ==> ActionValue(t, a) == Constituents(t) + {Of(t.kind.elem)}
    ensures a == Increment ==> ActionValue(t, a) == Constituents(t)
  {
    ActionsForTypeIff(t, a);
    if a == Append || a == Prepend {
      assert t.kind.Arr?;
      assert PayloadFor(Of(t.kind), a) == {Of(t.kind), Of(t.kind.elem)};
      assert Undefined in Constituents(t) ==> PayloadFor(Undefined, a) == {Undefined};
    } else if a == Increment {
      forall c | c in Constituents(t) ensures PayloadFor(c, a) == {c} {
      }
    }
  }

  /** One key of an update object: a dotted path, the plain value type it
      accepts, and the operations and payload types of the `Action` it accepts
      instead. TypeScript does not tie an action's payload to its operation. */
  datatype Slot = Slot(key: string, plain: Ty, actions: set<ActionType>, payloads: set<Constituent>)

  function LeafSlot(key: string, t: Ty): Slot
  {
    Slot(key, t, ActionsForType(t), set a, v | a in ActionsForType(t) && v in ActionValue(t, a) :: v)
  }

  /** The single-key object types whose union is `Updates<T, Prefix>`: one per
      non-record field of the level, and the nested ones of each record field.
      Every key starts with `prefix`, and no key is a record field. */
  function UpdateSlots(level: seq<Field>, prefix: string): (slots: set<Slot>)
    ensures forall s :: s in slots ==> prefix <= s.key
    ensures forall s :: s in slots ==> !IsRecord(s.plain)
    decreases level
  {
    (set i | 0 <= i < |level| && !IsRecord(level[i].ty) :: LeafSlot(prefix + level[i].name, level[i].ty))
    + (set i, s | 0 <= i < |level| && IsRecord(level[i].ty)
                  && s in UpdateSlots(level[i].ty.kind.fields, prefix + level[i].name + ".")
         :: s)
  }

  lemma SlotHead(level: seq<Field>, prefix: string, s: Slot) returns (i: nat)
    requires s in UpdateSlots(level, prefix)
    ensures i < |level|
    ensures !IsRecord(level[i].ty) ==> s == LeafSlot(prefix + level[i].name, level[i].ty)
    ensures IsRecord(level[i].ty) ==> s in UpdateSlots(level[i].ty.kind.fields, prefix + level[i].name + ".")
  {
    if s in (set i | 0 <= i < |level| && !IsRecord(level[i].ty) :: LeafSlot(prefix + level[i].name, level[i].ty)) {
      i :| 0 <= i < |level| && !IsRecord(level[i].ty) && s == LeafSlot(prefix + level[i].name, level[i].ty);
    } else {
      i :| 0 <= i < |level| && IsRecord(level[i].ty)
        && s in UpdateSlots(level[i].ty.kind.fields, prefix + level[i].name + ".");
    }
  }

  /** The update keys are exactly the leaves of the record, each under its
      dotted path and with its own type. */
  lemma {:induction false} UpdatesByLeaf(level: seq<Field>, prefix: string)
    ensures UpdateSlots(level, prefix)
         == set p | p in LeafPaths(level) :: LeafSlot(prefix + Dotted(p.names), p.ty)
    decreases level
  {
    var byLeaf := set p | p in LeafPaths(level) :: LeafSlot(prefix + Dotted(p.names), p.ty);
    forall s | s in UpdateSlots(level, prefix) ensures s in byLeaf {
      var i := SlotHead(level, prefix, s);
      if IsRecord(level[i].ty) {
        var sub := prefix + level[i].name + ".";
        UpdatesByLeaf(level[i].ty.kind.fields, sub);
        var q :| q in LeafPaths(level[i].ty.kind.fields) && s == LeafSlot(sub + Dotted(q.names), q.ty);
        var p := Path([level[i].name] + q.names, q.ty);
        assert p in LeafPaths(level);
        DottedUnder(prefix, level[i].name, q.names);
      } else {
        var p := Path([level[i].name], level[i].ty);
        assert p in LeafPaths(level);
        assert Dotted(p.names) == level[i].name;
      }
    }
    forall s | s in byLeaf ensures s in UpdateSlots(level, prefix) {
      var p :| p in LeafPaths(level) && s == LeafSlot(prefix + Dotted(p.names), p.ty);
      var i, q := LeafPathHead(level, p);
      if IsRecord(level[i].ty) {
        var sub := prefix + level[i].name + ".";
        UpdatesByLeaf(level[i].ty.kind.fields, sub);
        DottedUnder(prefix, level[i].name, q.names);
        assert s in UpdateSlots(level[i].ty.kind.fields, sub);
      } else {
        assert Dotted(p.names) == level[i].name;
      }
    }
  }

  /** In a record whose field names are unique and dot-free, each leaf has
      exactly one update key: distinct slots have distinct keys. */
  lemma OneKeyPerLeaf(level: seq<Field>, prefix: string, s: Slot, s': Slot)
    requires Unambiguous(level)
    requires s in UpdateSlots(level, prefix) && s' in UpdateSlots(level, prefix)
    requires s.key == s'.key
    ensures s == s'
  {
    UpdatesByLeaf(level, prefix);
    var p :| p in LeafPaths(level) && s == LeafSlot(prefix + Dotted(p.names), p.ty);
    var p' :| p' in LeafPaths(level) && s' == LeafSlot(prefix + Dotted(p'.names), p'.ty);
    LeafPathNoDot(level, p);
    LeafPathNoDot(level, p');
    assert Dotted(p.names) == Dotted(p'.names) by {
      assert prefix + Dotted(p.names) == prefix + Dotted(p'.names);
      assert Dotted(p.names) == (prefix + Dotted(p.names))[|prefix|..];
      assert Dotted(p'.names) == (prefix + Dotted(p'.names))[|prefix|..];
    }
    DottedInjective(p.names, p'.names);
    LeafPathFunctional(level, p, p');
  }
}
