# base-safe: typed query keys, update keys and client construction in Dafny

base-safe is a typed wrapper around the Deta Base key-value store. Its
substance is type-level: from the TypeScript type of a record it derives
the keys a query object may use (`Query<T>`), the keys an update object may
use and the atomic actions each of them admits (`Updates<T>`,
`ActionsForType`, `ActionValue`), and the shape of a stored record
(`RecordType`, `OutputRecord`). Around it sits a little string logic that
picks the API key and project id when a client is built (`Deta`) and checks
a base name (`DetaClass.BaseSafe`).

This project models those type computations as recursive functions over a
schema datatype, and the client construction as functions returning a
result or an error:

- `schema.dfy` (module `Schema`): a field's type is a `Kind` (number,
  string, boolean, null, array of a kind, nested record) plus an `optional`
  flag for a union with `undefined`. It holds the reserved fields `key` and
  `__expires`, `OutputRecord`, and dotted paths: `LeafPaths`, `FieldPaths`
  and `Dotted`. `Dotted` joins names with `.`, the way nested keys are
  spelled. `DottedInjective` proves that a dotted key names one path when no
  name contains a dot.
- `query.dfy` (module `Query`): `QueryType` is written column by column,
  like the eleven intersected mapped types of the source. `Operators` and
  `KeysAt` give the same table field by field: numeric, textual, array and
  other fields and their operators. `QueryTypeByField` proves the two tables
  equal. `QueryBranches` is the union type `Query` as a set of branches:
  all non-record fields of a level share one branch, the level's flat
  table, and each record field adds every branch of its nested query (none
  for an empty record, several when it holds records).
  Every leaf's keys lie together in one branch (`LeafKeysInSomeBranch`).
  Every key of every branch belongs to some field at some depth
  (`BranchKeysFromFields`).
- `updates.dfy` (module `Updates`): the action enum and `ActionsForType`
  and `ActionValue`, which distribute over the members of the leaf's union
  type. `UpdateSlots` gives one single-key slot per leaf (the union type
  `Updates`). `UpdatesByLeaf` and
  `OneKeyPerLeaf` prove that the slots are exactly the leaves under their
  dotted paths, and that no two leaves share a key when field names are
  unique and contain no dot.
- `client.dfy` (module `Client`): JavaScript's `trim` with ECMAScript's
  whitespace set, `split` on one character, `Deta` and
  `DetaClass.BaseSafe`. The `DETA_PROJECT_KEY` environment value is passed
  to `Deta` as the parameter `env`.

Modelling choices, each read off the code:

- A record-valued field also gets an equality key in its parent's flat
  branch (src/query.ts:4), when that level has a non-record field. A level
  whose fields are all records has no flat branch (`NoFlatBranch`).
- Trim is admitted only on a leaf whose type includes `undefined`
  (src/types.ts:53-54).
- In `QueryType` the tests `T[K] extends number`, `string` or `ArrayType`
  do not distribute over unions. So an optional number, string or array
  field gets only its equality key. `ActionsForType` and `ActionValue` test
  a bare type parameter, so they do distribute: an optional number admits
  Increment and Trim.
- `never | T extends X ? A : B` in `ActionsForType` reads as
  `(never | T) extends X ? A : B`. The type is therefore a chain of
  conditionals, one per member of the union.
- The `Action` an update key accepts is
  `Action<T, ActionsForType<T>, ActionValue<T, ActionsForType<T>>>`. So
  TypeScript does not tie the payload type to the chosen operation. The
  `Slot` datatype keeps the admitted operations and the admitted payload
  types as two separate sets.
- `RecordType` forbids `key` and `__expires` on every nested record too,
  because nested records must themselves be `RecordType`. `OutputRecord`
  replaces only the top-level ones.

## Model

| member | source | states |
|---|---|---|
| `Schema.RecordType` | src/types.ts:30-34 | a record meets `RecordType` only if no field is named `key` or `__expires`, and (by `NoReserved`) no nested record has one either; `OutputRecordOfRecordType` gives the output type of such a record |
| `Schema.WithoutReserved` | src/types.ts:41-44 | `Omit<T, "key" \| "__expires">`: keeps exactly the fields not named `key` or `__expires`, and changes nothing when there are none |
| `Schema.OutputRecord` | src/types.ts:36-45 | the output type has a mandatory string `key` and an optional number `__expires`, each once, and exactly the user's other fields |
| `Schema.OutputRecordOfRecordType` | src/types.ts:30-45 | for a record that meets `RecordType` (no reserved field), the output type is the record plus the two added fields |
| `Schema.LeafPaths` | src/types.ts:73-84 | the non-record leaves reached through nested records: every path is non-empty and ends at a field that is not a record |
| `Schema.FieldPaths` | src/query.ts:51-56 | every field reached through nested records, record fields included: every path is non-empty |
| `Schema.DottedUnder` | src/types.ts:74-77 | the key of a nested field is the parent's prefix, the field name, a dot, and the dotted rest of the path |
| `Schema.DottedInjective` | src/types.ts:74-77 | when no name contains a dot, two dotted keys are equal only if the paths are equal |
| `Schema.LeafPathNoDot` | src/types.ts:73-84 | in a record with unique, dot-free names, no segment of a leaf path contains a dot |
| `Schema.LeafPathFunctional` | src/types.ts:73-84 | in a record with unique, dot-free names, a leaf path's names determine its type |
| `Query.QueryType` | src/query.ts:3-46 | the flat key table of a level holds at least its first field's equality key; `QueryTypeByField` pins the whole table down |
| `Query.QueryTypeByField` | src/query.ts:3-46 | the eleven per-operator mapped types equal the per-field table: each field contributes exactly `KeysAt(prefix + name, type)` |
| `Query.NumberKeys` | src/query.ts:6-29 | a `number` field has exactly its equality key, `?gt`, `?lt`, `?gte`, `?lte` taking a number, and `?r` taking a pair of numbers |
| `Query.StringKeys` | src/query.ts:22-37 | a `string` field has exactly its equality key, `?pfx`, `?contains` and `?not_contains` taking a string, and no numeric operator |
| `Query.ArrayKeys` | src/query.ts:39-45 | an array field has its equality key (the whole array), and `?contains` and `?not_contains` taking one element |
| `Query.OtherKeys` | src/query.ts:4-45 | boolean, null, record and optional fields get only their equality key, with the field's own type |
| `Query.QueryBranches` | src/query.ts:48-57 | the branches of the `Query` union: every key of every branch starts with the prefix, and no key takes `never` |
| `Query.FlatBranch` | src/query.ts:4-55 | a level with a non-record field has its flat table as a branch, and that table holds the equality key of every field, records included |
| `Query.OnlyNestedBranches` | src/query.ts:52-56 | in a level whose fields are all records, every key of every branch lies under `prefix + K + "."` of one of its fields |
| `Query.NoFlatBranch` | src/query.ts:52-56 | a non-empty level whose fields are all records does not have its flat table as a branch: it is queried only through its record fields |
| `Query.LeafKeysInSomeBranch` | src/query.ts:48-57 | every leaf at any depth has all the keys its category admits, spelled with its dotted path, together in one branch |
| `Query.BranchKeysFromFields` | src/query.ts:48-57 | every key of every branch is one that some field, at some depth, admits under its dotted path |
| `Updates.OperationName` | dist/action.d.ts:2-8 | each action operation has a non-empty wire name: set, trim, increment, append, prepend |
| `Updates.OperationNamesDistinct` | dist/action.d.ts:2-8 | the wire names of different operations differ |
| `Updates.ActionsForType` | src/types.ts:49-55 | Set is never admitted, and Trim is admitted exactly when the type includes `undefined`; `ActionsForTypeIff` pins the whole set down |
| `Updates.ActionsForTypeIff` | src/types.ts:49-55 | an action is admitted exactly when it is Increment on a number, Append or Prepend on an array, or Trim on a type that includes `undefined`; Set never |
| `Updates.ActionsByCategory` | src/types.ts:49-55 | number admits only Increment; array only Append and Prepend; required string and boolean nothing; optional number Increment and Trim |
| `Updates.ActionValue` | src/types.ts:57-66 | for any action but Trim the payload types include every member of the leaf's type, and `undefined` exactly when the leaf is optional; `ActionValueIff` pins the whole set down |
| `Updates.ActionValueIff` | src/types.ts:57-66 | Trim carries `undefined`; Append and Prepend carry the leaf's type or one element; Increment carries the leaf's own type |
| `Updates.UpdateSlots` | src/types.ts:68-86 | every update key starts with the prefix, and no update key is a record field: records are replaced by their leaves |
| `Updates.UpdatesByLeaf` | src/types.ts:68-86 | the update slots are exactly one per leaf, keyed by prefix plus the dotted path, with the leaf's type, actions and payloads |
| `Updates.OneKeyPerLeaf` | src/types.ts:76-84 | with unique, dot-free field names, two update slots with the same key are the same slot |
| `Client.TrimStart` | src/index.ts:44-45 | the result is a suffix of the input, what was removed is whitespace, and it does not start with whitespace |
| `Client.TrimEnd` | src/index.ts:44-45 | the result is a prefix of the input, what was removed is whitespace, and it does not end with whitespace |
| `Client.TrimWhitespace` | src/index.ts:44-45 | the result is the input with a whitespace prefix and a whitespace suffix cut off; it is empty exactly when the input is all whitespace, and otherwise neither end is whitespace |
| `Client.TrimOfFramed` | src/index.ts:44-45 | trimming whitespace around a middle whose ends are not whitespace gives that middle |
| `Client.TrimIdempotent` | src/index.ts:44-45 | trimming twice is trimming once |
| `Client.Split` | src/index.ts:55 | `split("_")` gives at least one part, no part holds the separator, and joining the parts gives the input back |
| `Client.SplitJoin` | src/index.ts:55 | splitting parts joined by the separator gives the parts back when no part holds it |
| `Client.ProjectIdOf` | src/index.ts:55 | the project id is the prefix of the key before its first `_`, or the whole key when there is none |
| `Client.DetaClass.BaseSafe` | src/index.ts:27-40 | fails with "Base name is not defined" exactly when the name is missing or only whitespace; otherwise keeps the client's key, type and project id and the trimmed name |
| `Client.Deta` | src/index.ts:43-56 | token and project key both present after trimming give an `AuthToken` client; otherwise the trimmed project key, else the trimmed environment value, is a `ProjectKey` key; with neither, "Project key is not defined" |
| `Client.TokenNeedsProjectKey` | src/index.ts:44-50 | without a usable project key the auth token does not affect the result |
| `Client.ArgumentOverridesEnvironment` | src/index.ts:50 | with a usable project key argument the environment value does not affect the result |

## Left out

- src/base.ts and the store's SDK: the typed `put`, `get`, `insert`,
  `putMany`, `update` and `fetch` methods cast or forward the SDK's
  results. The
  SDK and the remote store are not part of this model.
- src/action.ts: the `Action` class only forwards `(operation, value)` to
  the SDK's constructor. Actions are modelled by the `ActionType` enum and
  by `ActionValue`.
- Fetch auto-pagination, the translation of update objects, zod validation
  and chunked `putMany` are only declared in the compiled type
  declarations. Their implementation is not part of this model.
- Network behaviour, the tests and the test-data script. Reading
  `process.env` is replaced by the parameter `env` of `Deta`.
- The compiled `dist/*.d.ts` files, which are partly stale or divergent
  duplicates of the sources (a flat `Query`, a different `OutputRecord`, a
  different client class). They are used only for the action enum.
- Unions other than "a kind or `undefined`": a field typed `string | number`
  cannot be written in this schema datatype. Array elements have a single
  kind.
- TypeScript assignability details: excess-property checks on unions, the
  optional `?:` modifier of mapped query keys, and `never` as the type of a
  reserved field. The model states the sets of keys and value types, not
  the checker's verdict on a given object.
- Values: the model works with types only. It does not model record values
  or checking a value against a type.
- The `host` argument of `BaseSafe` and the schema object: both are passed
  through unchanged, and the zod schema is represented by the record schema
  it describes.
- `{[K in keyof T]: …}[keyof T]` in `Query` and `Updates` keeps the `?`
  modifier of an optional field, so the indexed union also holds
  `undefined`. The branch and slot sets leave that member out.
- The readings of optional fields (an optional field's type is its kind
  joined with `undefined`) assume the compiler option `strictNullChecks`.
  Without it `undefined` is absorbed, and Trim is never admitted.
