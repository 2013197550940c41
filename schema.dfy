/** Record schemas: the shapes a stored record's fields may take, the reserved
    fields of a stored record, and the dotted paths that name nested fields. */
module Schema {

  /** The shape of a field's value, leaving aside `undefined`. */
  datatype Kind =
    | Num                       // number
    | Str                       // string
    | Bool                      // boolean
    | Null                      // null
    | Arr(elem: Kind)           // an array of `elem`
    | Rec(fields: seq<Field>)   // a nested record

  /** A field's declared type: its kind, joined with `undefined` when `optional`. */
  datatype Ty = Ty(kind: Kind, optional: bool)

  datatype Field = Field(name: string, ty: Ty)

  const NumberTy: Ty := Ty(Num, false)
  const StringTy: Ty := Ty(Str, false)

  /** One member of the union a declared type stands for. */
  datatype Constituent = Of(kind: Kind) | Undefined

  function Constituents(t: Ty): set<Constituent>
  {
    if t.optional then {Of(t.kind), Undefined} else {Of(t.kind)}
  }

  /** `t extends RecordType`: a nested record that cannot be `undefined`. */
  predicate IsRecord(t: Ty)
  {
    t.kind.Rec? && !t.optional
  }

  const KeyField: string := "key"
  const ExpiresField: string := "__expires"

  predicate IsReserved(name: string)
  {
    name == KeyField || name == ExpiresField
  }

  /** The `RecordType` constraint on a kind: no record at any depth, nor any
      record inside an array, declares `key` or `__expires`. */
  predicate NoReserved(k: Kind)
  {
    match k
    case Rec(fs) =>
      forall i :: 0 <= i < |fs| ==> !IsReserved(fs[i].name) && NoReserved(fs[i].ty.kind)
    case Arr(e) => NoReserved(e)
    case _ => true
  }

  predicate RecordType(level: seq<Field>): (b: bool)
    ensures b ==> forall i :: 0 <= i < |level| ==> !IsReserved(level[i].name)
  {
    NoReserved(Rec(level))
  }

  /** Drops the fields named `key` or `__expires`, keeping the others in order. */
  function WithoutReserved(level: seq<Field>): (r: seq<Field>)
    ensures forall f :: f in r <==> f in level && !IsReserved(f.name)
    ensures (forall i :: 0 <= i < |level| ==> !IsReserved(level[i].name)) ==> r == level
  {
    if level == [] then []
    else if IsReserved(level[0].name) then WithoutReserved(level[1..])
    else [level[0]] + WithoutReserved(level[1..])
  }

  /** `OutputRecord<T>`: what the store hands back for a record of type `level`. */
  function OutputRecord(level: seq<Field>): (out: seq<Field>)
    ensures Field(KeyField, StringTy) in out
    ensures Field(ExpiresField, Ty(Num, true)) in out
    ensures forall f :: f in out && f.name == KeyField ==> f.ty == StringTy
    ensures forall f :: f in out && f.name == ExpiresField ==> f.ty == Ty(Num, true)
    ensures forall i, j :: 0 <= i < j < |out| && IsReserved(out[i].name) ==> out[i].name != out[j].name
    ensures forall f :: f in out && !IsReserved(f.name) <==> f in level && !IsReserved(f.name)
  {
    var kept := WithoutReserved(level);
    var out := kept + [Field(KeyField, StringTy), Field(ExpiresField, Ty(Num, true))];
    assert forall i :: 0 <= i < |kept| ==> kept[i] in kept;
    out
  }

  /** For a record type that satisfies `RecordType`, the output type is the
      record followed by the two added fields. */
  lemma OutputRecordOfRecordType(level: seq<Field>)
    requires RecordType(level)
    ensures OutputRecord(level) == level + [Field(KeyField, StringTy), Field(ExpiresField, Ty(Num, true))]
  {
  }

  // ---------------------------------------------------------------------
  // Dotted paths
  // ---------------------------------------------------------------------

  predicate NoDot(name: string)
  {
    '.' !in name
  }

  predicate DotFree(names: seq<string>)
  {
    forall k :: 0 <= k < |names| ==> NoDot(names[k])
  }

  lemma DotFreeCons(n: string, rest: seq<string>)
    requires NoDot(n) && DotFree(rest)
    ensures DotFree([n] + rest)
  {
    forall k | 0 <= k < |[n] + rest| ensures NoDot(([n] + rest)[k]) {
      if k > 0 { assert ([n] + rest)[k] == rest[k - 1]; }
    }
  }

  /** Field names joined with `.`, the way nested keys are spelled. */
  function Dotted(names: seq<string>): string
  {
    if |names| == 0 then ""
    else if |names| == 1 then names[0]
    else names[0] + "." + Dotted(names[1..])
  }

  /** A path to a field through nested records, and the field's declared type. */
  datatype Path = Path(names: seq<string>, ty: Ty)

  /** The paths to every field that is not itself a record, through nested records. */
  function LeafPaths(level: seq<Field>): (paths: set<Path>)
    ensures forall p :: p in paths ==> |p.names| > 0 && !IsRecord(p.ty)
    decreases level
  {
    (set i | 0 <= i < |level| && !IsRecord(level[i].ty) :: Path([level[i].name], level[i].ty))
    + (set i, p | 0 <= i < |level| && IsRecord(level[i].ty) && p in LeafPaths(level[i].ty.kind.fields)
         :: Path([level[i].name] + p.names, p.ty))
  }

  /** Where a leaf path comes from: a leaf field of this level, or a leaf path
      of a record field prefixed with that field's name. */
  lemma LeafPathHead(level: seq<Field>, p: Path) returns (i: nat, q: Path)
    requires p in LeafPaths(level)
    ensures i < |level|
    ensures !IsRecord(level[i].ty) ==> p == Path([level[i].name], level[i].ty)
    ensures IsRecord(level[i].ty) ==>
      q in LeafPaths(level[i].ty.kind.fields) && p == Path([level[i].name] + q.names, q.ty)
  {
    if p in (set i | 0 <= i < |level| && !IsRecord(level[i].ty) :: Path([level[i].name], level[i].ty)) {
      i :| 0 <= i < |level| && !IsRecord(level[i].ty) && p == Path([level[i].name], level[i].ty);
      q := p;
    } else {
      i, q :| 0 <= i < |level| && IsRecord(level[i].ty) && q in LeafPaths(level[i].ty.kind.fields)
        && p == Path([level[i].name] + q.names, q.ty);
    }
  }

  /** The paths to every field, records included, through nested records. */
  function FieldPaths(level: seq<Field>): (paths: set<Path>)
    ensures forall p :: p in paths ==> |p.names| > 0
    decreases level
  {
    (set i | 0 <= i < |level| :: Path([level[i].name], level[i].ty))
    + (set i, p | 0 <= i < |level| && IsRecord(level[i].ty) && p in FieldPaths(level[i].ty.kind.fields)
         :: Path([level[i].name] + p.names, p.ty))
  }

  /** Field names are unique on each level and none contains a dot, at every
      depth reached through nested records. */
  predicate Unambiguous(level: seq<Field>)
    decreases level
  {
    (forall i, j :: 0 <= i < j < |level| ==> level[i].name != level[j].name)
    && (forall i :: 0 <= i < |level| ==> NoDot(level[i].name))
    && (forall i :: 0 <= i < |level| && IsRecord(level[i].ty) ==> Unambiguous(level[i].ty.kind.fields))
  }

  lemma DottedCons(n: string, rest: seq<string>)
    requires |rest| > 0
    ensures Dotted([n] + rest) == n + "." + Dotted(rest)
  {
    assert ([n] + rest)[1..] == rest;
  }

  lemma FirstDot(x: string, u: string)
    requires NoDot(x)
    ensures (x + "." + u)[|x|] == '.'
    ensures forall k :: 0 <= k < |x| ==> (x + "." + u)[k] != '.'
  {
    forall k | 0 <= k < |x| ensures (x + "." + u)[k] != '.' {
      assert (x + "." + u)[k] == x[k];
    }
  }

  /** The key of a nested field: its parent's key, a dot, and its own path. */
  lemma DottedUnder(prefix: string, name: string, rest: seq<string>)
    requires |rest| > 0
    ensures prefix + Dotted([name] + rest) == prefix + name + "." + Dotted(rest)
  {
    DottedCons(name, rest);
    Regroup(prefix, name, Dotted(rest));
  }

  lemma Regroup(a: string, b: string, c: string)
    ensures a + (b + "." + c) == a + b + "." + c
  {
    assert b + "." + c == b + ("." + c);
    assert a + (b + ("." + c)) == (a + b) + ("." + c);
  }

  /** Splitting at the first dot recovers both sides when the heads have no dot. */
  lemma SplitAtFirstDot(x: string, u: string, y: string, v: string)
    requires NoDot(x) && NoDot(y)
    requires x + "." + u == y + "." + v
    ensures x == y && u == v
  {
    var s := x + "." + u;
    FirstDot(x, u);
    FirstDot(y, v);
    assert |x| == |y|;
    assert x == s[..|x|];
    assert y == (y + "." + v)[..|y|];
    assert u == s[|x| + 1..];
    assert v == (y + "." + v)[|y| + 1..];
  }

  /** A dotted key names at most one path when no segment contains a dot. */
  lemma {:induction false} DottedInjective(a: seq<string>, b: seq<string>)
    requires |a| > 0 && |b| > 0
    requires DotFree(a) && DotFree(b)
    requires Dotted(a) == Dotted(b)
    ensures a == b
  {
    if |a| == 1 && |b| == 1 {
    } else if |a| == 1 {
      assert false;
    } else if |b| == 1 {
      assert false;
    } else {
      SplitAtFirstDot(a[0], Dotted(a[1..]), b[0], Dotted(b[1..]));
      DottedInjective(a[1..], b[1..]);
      assert a == [a[0]] + a[1..];
      assert b == [b[0]] + b[1..];
    }
  }

  /** In an unambiguous record no segment of a leaf path contains a dot. */
  lemma {:induction false} LeafPathNoDot(level: seq<Field>, p: Path)
    requires Unambiguous(level)
    requires p in LeafPaths(level)
    ensures DotFree(p.names)
    decreases level
  {
    var i, p' := LeafPathHead(level, p);
    assert NoDot(level[i].name);
    if IsRecord(level[i].ty) {
      LeafPathNoDot(level[i].ty.kind.fields, p');
      DotFreeCons(level[i].name, p'.names);
    } else {
      assert p.names == [level[i].name];
    }
  }

  /** In an unambiguous record a leaf path's names determine its type. */
  lemma {:induction false} LeafPathFunctional(level: seq<Field>, p: Path, q: Path)
    requires Unambiguous(level)
    requires p in LeafPaths(level) && q in LeafPaths(level)
    requires p.names == q.names
    ensures p == q
    decreases level
  {
    var i, p' := LeafPathHead(level, p);
    var j, q' := LeafPathHead(level, q);
    assert level[i].name == p.names[0] == q.names[0] == level[j].name;
    assert i == j;
    if IsRecord(level[i].ty) {
      assert Unambiguous(level[i].ty.kind.fields);
      assert p'.names == p.names[1..] == q.names[1..] == q'.names;
      LeafPathFunctional(level[i].ty.kind.fields, p', q');
    }
  }

}
