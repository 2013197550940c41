/** The query keys a record schema admits (`QueryType` and `Query` in
    src/query.ts): each key is a dotted field path, optionally followed by an
    operator suffix, and each key takes a value of a type the field decides. */
module Query {
  import opened Schema

  /** The type of the value a query key takes. `Never` is TypeScript's `never`. */
  datatype Operand = Plain(ty: Ty) | NumberPair | Never

  /** One legal key of a query object and the type of its value. */
  datatype Entry = Entry(key: string, operand: Operand)

  // ---------------------------------------------------------------------
  // QueryType<T, P>: the flat key table of one record level, written as the
  // source writes it, one mapped type (a "column") per operator.
  // ---------------------------------------------------------------------

  /** The condition of a column's `as` clause on the field type `T[K]`. */
  datatype Guard = Every | IsNumber | IsString | IsArray

  /** The value type a column gives its keys. */
  datatype Take = FieldType | NumberType | PairType | StringType | ElementType

  datatype Column = Column(guard: Guard, suffix: string, take: Take)

  /** The eleven mapped types intersected in `QueryType`, in source order. */
  const Columns: seq<Column> := [
    Column(Every, "", FieldType),
    Column(IsNumber, "?gt", NumberType),
    Column(IsNumber, "?lt", NumberType),
    Column(IsNumber, "?gte", NumberType),
    Column(IsNumber, "?lte", NumberType),
    Column(IsString, "?pfx", StringType),
    Column(IsNumber, "?r", PairType),
    Column(IsString, "?contains", StringType),
    Column(IsString, "?not_contains", StringType),
    Column(IsArray, "?contains", ElementType),
    Column(IsArray, "?not_contains", ElementType)
  ]

  /** `T[K] extends number`, `T[K] extends string`, `T[K] extends ArrayType`.
      The check type is `T[K]`, not a bare type parameter, so the test does not
      distribute over a union: an optional field passes none of them. */
  predicate Extends(t: Ty, g: Guard)
  {
    match g
    case Every => true
    case IsNumber => t == NumberTy
    case IsString => t == StringTy
    case IsArray => t.kind.Arr? && !t.optional
  }

  function Value(t: Ty, take: Take): Operand
  {
    match take
    case FieldType => Plain(t)
    case NumberType => Plain(NumberTy)
    case PairType => NumberPair
    case StringType => Plain(StringTy)
    case ElementType => if t.kind.Arr? then Plain(Ty(t.kind.elem, false)) else Never
  }

  function ColumnKeys(level: seq<Field>, prefix: string, c: Column): set<Entry>
  {
    set i | 0 <= i < |level| && Extends(level[i].ty, c.guard)
      :: Entry(prefix + level[i].name + c.suffix, Value(level[i].ty, c.take))
  }

  /** `QueryType<T, P>`: a level with a field has a key (its first field's
      equality key at least); `QueryTypeByField` gives the whole table. */
  function QueryType(level: seq<Field>, prefix: string): (r: set<Entry>)
    ensures |level| > 0 ==> Entry(prefix + level[0].name, Plain(level[0].ty)) in r
  {
    assert |level| > 0 ==> prefix + level[0].name + "" == prefix + level[0].name;
    assert |level| > 0 ==>
      Entry(prefix + level[0].name, Plain(level[0].ty)) in ColumnKeys(level, prefix, Columns[0]);
    set j, e | 0 <= j < |Columns| && e in ColumnKeys(level, prefix, Columns[j]) :: e
  }

  // ---------------------------------------------------------------------
  // The same table field by field: each category of leaf and its operators.
  // ---------------------------------------------------------------------

  datatype Op = Eq | Gt | Lt | Gte | Lte | R | Pfx | Contains | NotContains

  function Suffix(op: Op): string
  {
    match op
    case Eq => ""
    case Gt => "?gt"
    case Lt => "?lt"
    case Gte => "?gte"
    case Lte => "?lte"
    case R => "?r"
    case Pfx => "?pfx"
    case Contains => "?contains"
    case NotContains => "?not_contains"
  }

  /** The operators a field of type `t` admits: numeric, textual, array or other. */
  function Operators(t: Ty): set<Op>
  {
    if t == NumberTy then {Eq, Gt, Lt, Gte, Lte, R}
    else if t == StringTy then {Eq, Pfx, Contains, NotContains}
    else if t.kind.Arr? && !t.optional then {Eq, Contains, NotContains}
    else {Eq}
  }

  /** The value an operator on a field of type `t` compares with. */
  function OperandOf(t: Ty, op: Op): Operand
  {
    match op
    case Eq => Plain(t)
    case Gt | Lt | Gte | Lte => Plain(NumberTy)
    case R => NumberPair
    case Pfx => Plain(StringTy)
    case Contains | NotContains =>
      if t.kind.Arr? then Plain(Ty(t.kind.elem, false)) else Plain(StringTy)
  }

  /** The keys of a field whose spelled-out path is `base`. */
  function KeysAt(base: string, t: Ty): set<Entry>
  {
    set op | op in Operators(t) :: Entry(base + Suffix(op), OperandOf(t, op))
  }

  /** The operator the j-th column stands for. */
  function ColumnOp(j: nat): Op
    requires j < |Columns|
  {
    [Eq, Gt, Lt, Gte, Lte, Pfx, R, Contains, NotContains, Contains, NotContains][j]
  }

  lemma ColumnMeaning(j: nat, t: Ty)
    requires j < |Columns| && Extends(t, Columns[j].guard)
    ensures ColumnOp(j) in Operators(t)
    ensures Suffix(ColumnOp(j)) == Columns[j].suffix
    ensures OperandOf(t, ColumnOp(j)) == Value(t, Columns[j].take)
  {
  }

  /** The column that produces operator `op` for a field of type `t`. */
  function OpColumn(t: Ty, op: Op): (j: nat)
    requires op in Operators(t)
    ensures j < |Columns| && Extends(t, Columns[j].guard)
    ensures Columns[j].suffix == Suffix(op)
    ensures Value(t, Columns[j].take) == OperandOf(t, op)
  {
    match op
    case Eq => 0
    case Gt => 1
    case Lt => 2
    case Gte => 3
    case Lte => 4
    case Pfx => 5
    case R => 6
    case Contains => if t.kind.Arr? then 9 else 7
    case NotContains => if t.kind.Arr? then 10 else 8
  }

  /** The per-operator table of the source is the per-field table: every field
      contributes exactly the keys its category admits. */
  lemma QueryTypeByField(level: seq<Field>, prefix: string)
    ensures QueryType(level, prefix)
         == set i, e | 0 <= i < |level| && e in KeysAt(prefix + level[i].name, level[i].ty) :: e
  {
    var byField := set i, e | 0 <= i < |level| && e in KeysAt(prefix + level[i].name, level[i].ty) :: e;
    forall e | e in QueryType(level, prefix) ensures e in byField {
      var j :| 0 <= j < |Columns| && e in ColumnKeys(level, prefix, Columns[j]);
      var i :| 0 <= i < |level| && Extends(level[i].ty, Columns[j].guard)
        && e == Entry(prefix + level[i].name + Columns[j].suffix, Value(level[i].ty, Columns[j].take));
      ColumnMeaning(j, level[i].ty);
      assert e in KeysAt(prefix + level[i].name, level[i].ty);
    }
    forall e | e in byField ensures e in QueryType(level, prefix) {
      var i :| 0 <= i < |level| && e in KeysAt(prefix + level[i].name, level[i].ty);
      var op :| op in Operators(level[i].ty)
        && e == Entry(prefix + level[i].name + Suffix(op), OperandOf(level[i].ty, op));
      var j := OpColumn(level[i].ty, op);
      assert e in ColumnKeys(level, prefix, Columns[j]);
    }
  }

  lemma KeyOf(base: string, t: Ty, op: Op)
    requires op in Operators(t)
    ensures Entry(base + Suffix(op), OperandOf(t, op)) in KeysAt(base, t)
  {
  }

  /** A `number` field: equality plus `?gt`, `?lt`, `?gte`, `?lte` taking a
      number and `?r` taking a pair of numbers, and nothing else. */
  lemma NumberKeys(base: string)
    ensures KeysAt(base, NumberTy) == {
      Entry(base, Plain(NumberTy)),
      Entry(base + "?gt", Plain(NumberTy)),
      Entry(base + "?lt", Plain(NumberTy)),
      Entry(base + "?gte", Plain(NumberTy)),
      Entry(base + "?lte", Plain(NumberTy)),
      Entry(base + "?r", NumberPair)}
  {
    assert base + "" == base;
    KeyOf(base, NumberTy, Eq);
    KeyOf(base, NumberTy, Gt);
    KeyOf(base, NumberTy, Lt);
    KeyOf(base, NumberTy, Gte);
    KeyOf(base, NumberTy, Lte);
    KeyOf(base, NumberTy, R);
  }

  /** A `string` field: equality plus `?pfx`, `?contains` and `?not_contains`
      taking a string, and no numeric operator. */
  lemma StringKeys(base: string)
    ensures KeysAt(base, StringTy) == {
      Entry(base, Plain(StringTy)),
      Entry(base + "?pfx", Plain(StringTy)),
      Entry(base + "?contains", Plain(StringTy)),
      Entry(base + "?not_contains", Plain(StringTy))}
  {
    assert base + "" == base;
    KeyOf(base, StringTy, Eq);
    KeyOf(base, StringTy, Pfx);
    KeyOf(base, StringTy, Contains);
    KeyOf(base, StringTy, NotContains);
  }

  /** An array field: equality on the whole array, and `?contains` and
      `?not_contains` taking one element. */
  lemma ArrayKeys(base: string, elem: Kind)
    ensures KeysAt(base, Ty(Arr(elem), false)) == {
      Entry(base, Plain(Ty(Arr(elem), false))),
      Entry(base + "?contains", Plain(Ty(elem, false))),
      Entry(base + "?not_contains", Plain(Ty(elem, false)))}
  {
    assert base + "" == base;
    KeyOf(base, Ty(Arr(elem), false), Eq);
    KeyOf(base, Ty(Arr(elem), false), Contains);
    KeyOf(base, Ty(Arr(elem), false), NotContains);
  }

  /** Any other field (boolean, null, a record, or an optional field of any
      kind) gets only its equality key. */
  lemma OtherKeys(base: string, t: Ty)
    requires t != NumberTy && t != StringTy && !(t.kind.Arr? && !t.optional)
    ensures KeysAt(base, t) == {Entry(base, Plain(t))}
  {
    assert base + "" == base;
    KeyOf(base, t, Eq);
  }

  // ---------------------------------------------------------------------
  // Query<T, Prefix>: the union, over the fields of a level, of the nested
  // query of a record field or the level's own flat table.
  // ---------------------------------------------------------------------

  /** The branches of the union type `Query<T, Prefix>`: every key of every
      branch starts with `prefix`, and no key takes a `never` value. */
  function QueryBranches(level: seq<Field>, prefix: string): (branches: set<set<Entry>>)
    ensures forall b, e :: b in branches && e in b ==> prefix <= e.key
    ensures forall b, e :: b in branches && e in b ==> e.operand != Never
    decreases level
  {
    (if exists i :: 0 <= i < |level| && !IsRecord(level[i].ty) then {QueryType(level, prefix)} else {})
    + (set i, b | 0 <= i < |level| && IsRecord(level[i].ty)
                  && b in QueryBranches(level[i].ty.kind.fields, prefix + level[i].name + ".")
         :: b)
  }

  /** A level with a non-record field has its flat table as a branch, and that
      table also holds the equality key of every record field beside it. */
  lemma FlatBranch(level: seq<Field>, prefix: string, i: nat, j: nat)
    requires i < |level| && !IsRecord(level[i].ty)
    requires j < |level|
    ensures QueryType(level, prefix) in QueryBranches(level, prefix)
    ensures Entry(prefix + level[j].name, Plain(level[j].ty)) in QueryType(level, prefix)
  {
    assert prefix + level[j].name + "" == prefix + level[j].name;
    assert Entry(prefix + level[j].name, Plain(level[j].ty)) in ColumnKeys(level, prefix, Columns[0]);
  }

  /** A level whose fields are all records contributes no flat branch: every
      key it produces lies under one of its record fields. */
  lemma OnlyNestedBranches(level: seq<Field>, prefix: string, b: set<Entry>, e: Entry)
    requires forall i :: 0 <= i < |level| ==> IsRecord(level[i].ty)
    requires b in QueryBranches(level, prefix) && e in b
    ensures exists i :: 0 <= i < |level| && prefix + level[i].name + "." <= e.key
  {
  }

  /** The index of a field whose name is no longer than any other. */
  lemma {:induction false} ShortestName(level: seq<Field>) returns (m: nat)
    requires |level| > 0
    ensures m < |level|
    ensures forall i :: 0 <= i < |level| ==> |level[m].name| <= |level[i].name|
  {
    if |level| == 1 {
      m := 0;
    } else {
      var k := ShortestName(level[1..]);
      assert forall i :: 1 <= i < |level| ==> level[i] == level[1..][i - 1];
      m := if |level[0].name| <= |level[1..][k].name| then 0 else k + 1;
    }
  }

  /** A non-empty level whose fields are all records has no flat branch: its
      flat table holds the equality key of its shortest field name, and that
      key lies under no `prefix + K + "."`. Such a level is reached only
      through its record fields. */
  lemma NoFlatBranch(level: seq<Field>, prefix: string)
    requires |level| > 0
    requires forall i :: 0 <= i < |level| ==> IsRecord(level[i].ty)
    ensures QueryType(level, prefix) !in QueryBranches(level, prefix)
  {
    var m := ShortestName(level);
    var e := Entry(prefix + level[m].name, Plain(level[m].ty));
    assert prefix + level[m].name + "" == prefix + level[m].name;
    assert e in ColumnKeys(level, prefix, Columns[0]);
    assert e in QueryType(level, prefix);
    forall i | 0 <= i < |level| ensures !(prefix + level[i].name + "." <= e.key) {
      assert |e.key| < |prefix + level[i].name + "."|;
    }
    if QueryType(level, prefix) in QueryBranches(level, prefix) {
      OnlyNestedBranches(level, prefix, QueryType(level, prefix), e);
      assert false;
    }
  }

  lemma NestedBranch(level: seq<Field>, prefix: string, i: nat, b: set<Entry>)
    requires i < |level| && IsRecord(level[i].ty)
    requires b in QueryBranches(level[i].ty.kind.fields, prefix + level[i].name + ".")
    ensures b in QueryBranches(level, prefix)
  {
  }

  /** Every leaf, at any depth, has all the keys its category admits, spelled
      with its dotted path, together in one branch. */
  lemma {:induction false} LeafKeysInSomeBranch(level: seq<Field>, prefix: string, p: Path)
    requires p in LeafPaths(level)
    ensures exists b :: b in QueryBranches(level, prefix) && KeysAt(prefix + Dotted(p.names), p.ty) <= b
    decreases level
  {
    var i, q := LeafPathHead(level, p);
    if IsRecord(level[i].ty) {
      var sub := prefix + level[i].name + ".";
      LeafKeysInSomeBranch(level[i].ty.kind.fields, sub, q);
      var b :| b in QueryBranches(level[i].ty.kind.fields, sub) && KeysAt(sub + Dotted(q.names), q.ty) <= b;
      DottedUnder(prefix, level[i].name, q.names);
      NestedBranch(level, prefix, i, b);
    } else {
      QueryTypeByField(level, prefix);
      assert KeysAt(prefix + level[i].name, level[i].ty) <= QueryType(level, prefix);
      assert QueryType(level, prefix) in QueryBranches(level, prefix);
    }
  }

  /** Where a branch comes from: the level's own flat table, or a branch of a
      record field's nested query. */
  lemma BranchHead(level: seq<Field>, prefix: string, b: set<Entry>) returns (i: nat)
    requires b in QueryBranches(level, prefix)
    ensures i < |level|
    ensures !IsRecord(level[i].ty) ==> b == QueryType(level, prefix)
    ensures IsRecord(level[i].ty) ==> b in QueryBranches(level[i].ty.kind.fields, prefix + level[i].name + ".")
  {
    if b == QueryType(level, prefix) && exists k :: 0 <= k < |level| && !IsRecord(level[k].ty) {
      i :| 0 <= i < |level| && !IsRecord(level[i].ty);
    } else {
      i :| 0 <= i < |level| && IsRecord(level[i].ty)
        && b in QueryBranches(level[i].ty.kind.fields, prefix + level[i].name + ".");
    }
  }

  lemma NestedFieldPath(level: seq<Field>, i: nat, q: Path)
    requires i < |level| && IsRecord(level[i].ty)
    requires q in FieldPaths(level[i].ty.kind.fields)
    ensures Path([level[i].name] + q.names, q.ty) in FieldPaths(level)
  {
  }

  /** Conversely, every key of every branch is one that some field, at some
      depth, admits under its dotted path. */
  lemma {:induction false} BranchKeysFromFields(level: seq<Field>, prefix: string, b: set<Entry>, e: Entry)
    requires b in QueryBranches(level, prefix) && e in b
    ensures exists p :: p in FieldPaths(level) && e in KeysAt(prefix + Dotted(p.names), p.ty)
    decreases level
  {
    var i := BranchHead(level, prefix, b);
    if IsRecord(level[i].ty) {
      var sub := prefix + level[i].name + ".";
      BranchKeysFromFields(level[i].ty.kind.fields, sub, b, e);
      var q :| q in FieldPaths(level[i].ty.kind.fields) && e in KeysAt(sub + Dotted(q.names), q.ty);
      NestedFieldPath(level, i, q);
      DottedUnder(prefix, level[i].name, q.names);
      var p := Path([level[i].name] + q.names, q.ty);
      assert e in KeysAt(prefix + Dotted(p.names), p.ty);
    } else {
      QueryTypeByField(level, prefix);
      var k :| 0 <= k < |level| && e in KeysAt(prefix + level[k].name, level[k].ty);
      var p := Path([level[k].name], level[k].ty);
      assert p in FieldPaths(level);
      assert Dotted(p.names) == level[k].name;
    }
  }
}
