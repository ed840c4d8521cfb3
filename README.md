# HydratingResultSet, modelled in Dafny

This project models `HydratingResultSet` from the doctrine-dbal-hydrator library. It is the
collection that a query gateway returns. It fills itself once from a Doctrine DBAL result:

- every fetched row (a map from column name to value) is hydrated into a clone of an object prototype;
- the objects are walked with the PHP `Iterator` protocol (`rewind`, `valid`, `current`, `key`, `next`);
- `count()` asks the raw result for its row count;
- `toArray()` flattens the objects into a PHP array keyed by position, by a row field or by a callback.

Files:

- `wrappers.dfy` (module `Wrappers`): `Option` for PHP's nullable returns and `Result` for calls that may throw.
- `php_values.dfy` (module `PhpValues`): the scalar column values (null, bool, int, string) and PHP's
  `(string)` cast of them. The cast includes the decimal rendering of integers, negative ones with a leading
  minus sign. That rendering is proved injective, both for the non-negative positions and for every integer.
- `php_arrays.dfy` (module `PhpArrays`): PHP's ordered arrays with string keys. An array is its entry order
  (`keys`) plus a value for each key (`values`). Assigning a new key appends an entry; assigning an existing key
  replaces its value and keeps its place. `AppendFirst` is the entry order that a series of assignments leaves.
  It is proved to keep earlier entries in place, to hold each key once, and to order new keys by their first
  assignment.
- `hydrating_result_set.dfy` (module `ResultSet`):
  - the raw result: its `fetchAllAssociative` and `rowCount` answers, each of which may be a Doctrine exception;
  - the four `ResultSetException` failures and their messages;
  - the key strategy `NoKey | FieldKey(name) | FnKey(f)`;
  - the functional specification of `toArray` (`ToArrayFrom`, `ToArraySpec`);
  - the class `HydratingResultSet`. Its fields are `result` (present once initialised: PHP's `isset($this->result)`),
    `data`, `objects` and `cursor` (the internal array pointer of `objects`). The hydrator and the prototype are
    constructor arguments: a function `(Row, O) -> O` and a value.
- `to_array_properties.dfy` (module `ToArrayProperties`): what `toArray` promises, proved about `ToArraySpec`.
  This covers when it succeeds, which failure it reports, the exact key set, the order of the entries,
  last-write-wins on duplicate keys, and the three key strategies.
- `result_set_scenarios.dfy` (module `ResultSetScenarios`): the repository's documented behaviours, written as
  client code of the class. Each method's postcondition states what the caller observes.

Class invariant (`Consistent`):

- Once initialised, the stored rows are exactly what the fetch returned.
- `|objects| == |data|`, and `objects[i] == hydration(data[i], objectPrototype)` for every position.
- The cursor never passes `|objects|`. PHP's `next()` on a pointer already past the end leaves it there; the
  model does the same, so "past the end" is the single position `|objects|`.

`toArray` is a method that runs the source's `foreach ($this as ...)` loop through the class's own `Rewind`,
`Valid`, `Current`, `Key` and `Next`. It is proved equal to `ToArraySpec` of the rows and objects. The old
cursor does not appear in that specification, so the result does not depend on where the cursor stood.
The result is an ordered PHP array. Its entries stand in the order in which their keys were first assigned,
and an object filed under a key already present replaces that entry's value in the entry's place.

## Model

| member | source | states |
|---|---|---|
| `PhpValues.ToString` | src/ResultSet/HydratingResultSet.php:108 | The string cast of a key is empty exactly for null, false and the empty string; integers never cast to "" |
| `PhpValues.NatToDecimalInjective` | src/ResultSet/HydratingResultSet.php:105-112 | Two different positions never get the same positional key, so positional keys never overwrite each other |
| `PhpValues.IntToDecimalInjective` | src/ResultSet/HydratingResultSet.php:108-112 | Two different integer key values, negative ones included, never cast to the same array key |
| `ResultSet.KeyValue` | src/ResultSet/HydratingResultSet.php:96-106 | A callback gives its value for the object; a field name gives the row's value; no strategy gives the position. The only failure is "does not exist", and it happens exactly when the named field is absent from the row |
| `ResultSet.DeriveKey` | src/ResultSet/HydratingResultSet.php:96-110 | A derived key is never empty. It exists exactly when the key value exists and does not cast to "". Without a strategy it is the decimal form of the position |
| `ResultSet.KeyMessagesIdentifyFailure` | src/ResultSet/HydratingResultSet.php:100-109 | The "does not exist" and "is empty" messages never coincide, and each quotes its key, so equal messages mean the same failure for the same key |
| `ResultSet.KeyLabelAsWritten` | src/ResultSet/HydratingResultSet.php:109 | As written: the "is empty" message can render a field name or null, but not a Closure |
| `ResultSet.HydratingResultSet.constructor` | src/ResultSet/HydratingResultSet.php:19-23 | A new set holds the given hydrator and prototype and is not initialised |
| `ResultSet.HydratingResultSet.Count` | src/ResultSet/HydratingResultSet.php:28-31 | count() is the raw result's own row-count answer, a Doctrine exception included, not the number of hydrated objects |
| `ResultSet.HydratingResultSet.Current` | src/ResultSet/HydratingResultSet.php:33-38 | current() is the object under the cursor, which is the hydration of the row at that position; it is null exactly when the cursor is past the end |
| `ResultSet.HydratingResultSet.GetResult` | src/ResultSet/HydratingResultSet.php:40-43 | getResult() is the stored raw result; the answer its one fetch gave, as recorded in the raw-result value, is the stored rows |
| `ResultSet.HydratingResultSet.Initialize` | src/ResultSet/HydratingResultSet.php:48-70 | A second call fails with "already initialized". A failing fetch fails with "fetch failed" wrapping the cause. Both failures change nothing. Success stores the result and its rows, hydrates row i into object i for every i, and puts the cursor at 0 |
| `ResultSet.HydratingResultSet.Key` | src/ResultSet/HydratingResultSet.php:72-75 | key() is the cursor position while it is on an object, null once past the end |
| `ResultSet.HydratingResultSet.Next` | src/ResultSet/HydratingResultSet.php:77-80 | next() advances the cursor by one while it is on an object; past the end it stays there |
| `ResultSet.HydratingResultSet.Rewind` | src/ResultSet/HydratingResultSet.php:82-85 | rewind() puts the cursor back on the first object |
| `ResultSet.HydratingResultSet.ToArray` | src/ResultSet/HydratingResultSet.php:91-116 | toArray() returns ToArraySpec of the rows and objects, as an ordered array, whatever the old cursor. Afterwards the cursor is past the end, or at the first object whose key failed: that key's failure is the result, and every earlier object got a key |
| `ResultSet.HydratingResultSet.Valid` | src/ResultSet/HydratingResultSet.php:118-121 | valid() holds exactly when the cursor is on an object |
| `PhpArrays.Assign` | src/ResultSet/HydratingResultSet.php:112 | `$array[$key] = $object`: afterwards the key holds the object and every other key keeps its value |
| `PhpArrays.AssignAppendsFirst` | src/ResultSet/HydratingResultSet.php:112 | Assigning the next key in a series leaves exactly the entry order `AppendFirst` predicts for it, and keeps the array well formed |
| `PhpArrays.AssignKeepsWellFormed` | src/ResultSet/HydratingResultSet.php:112 | `$array[$key] = $object` keeps every key once; an existing key keeps its place, and a new key is appended |
| `PhpArrays.AppendFirstKeepsPrefix` | src/ResultSet/HydratingResultSet.php:112 | Assigning more keys never moves the entries already in the array |
| `PhpArrays.AppendFirstElements` | src/ResultSet/HydratingResultSet.php:112 | After a series of assignments, the keys are exactly the earlier keys plus the assigned keys |
| `PhpArrays.AppendFirstDistinct` | src/ResultSet/HydratingResultSet.php:112 | A series of assignments never creates two entries for one key |
| `PhpArrays.AppendFirstOrder` | src/ResultSet/HydratingResultSet.php:112 | The new entries are keys that were not already present, in the order of each key's first assignment |
| `PhpArrays.AppendFirstOfDistinct` | src/ResultSet/HydratingResultSet.php:112 | Assigning new keys that are all different appends them in assignment order |
| `ToArrayProperties.ToArrayFromOkIff` | src/ResultSet/HydratingResultSet.php:95-113 | The loop from any position completes exactly when every remaining object gets a key |
| `ToArrayProperties.ToArrayFromFirstError` | src/ResultSet/HydratingResultSet.php:95-110 | The loop reports the failure of the first object without a key |
| `ToArrayProperties.ToArrayFromErrorWitness` | src/ResultSet/HydratingResultSet.php:95-110 | A failed loop failed at an object without a key, every earlier object having had one |
| `ToArrayProperties.ToArrayFromKeys` | src/ResultSet/HydratingResultSet.php:95-113 | A completed loop holds the keys it started with plus every derived key, and nothing else |
| `ToArrayProperties.ToArrayFromKeeps` | src/ResultSet/HydratingResultSet.php:112 | An entry whose key no later object gets is never overwritten |
| `ToArrayProperties.ToArrayFromLastWins` | src/ResultSet/HydratingResultSet.php:112 | Each derived key ends up holding the last object that got it |
| `ToArrayProperties.ToArrayFromOrder` | src/ResultSet/HydratingResultSet.php:95-113 | A completed loop keeps the entries it started with in place, adds the derived keys in first-assignment order, and keeps each key once |
| `ToArrayProperties.ToArrayEntryOrder` | src/ResultSet/HydratingResultSet.php:91-116 | When every object gets a key, the entries of toArray() are the derived keys, each once, ordered by the first object that got each key. A key overwritten later keeps its first place |
| `ToArrayProperties.ToArraySucceedsIff` | src/ResultSet/HydratingResultSet.php:91-116 | toArray() succeeds exactly when every object gets a key |
| `ToArrayProperties.ToArrayFailsAtFirstBadKey` | src/ResultSet/HydratingResultSet.php:95-110 | toArray() fails with the failure of the first object that gets no key |
| `ToArrayProperties.ToArrayFailureCauses` | src/ResultSet/HydratingResultSet.php:99-110 | Every failure is either "does not exist", with the strategy's field absent from some row, or "is empty", with some key value null, false or "" |
| `ToArrayProperties.ToArrayMissingField` | src/ResultSet/HydratingResultSet.php:99-101 | Keyed by a field, toArray() fails with "does not exist" for that field when the first row without a usable key lacks the field |
| `ToArrayProperties.ToArrayEmptyKey` | src/ResultSet/HydratingResultSet.php:108-110 | For every strategy, a callback included, toArray() fails with "is empty" when the first unusable key value casts to "" |
| `ToArrayProperties.ToArrayLastWriteWins` | src/ResultSet/HydratingResultSet.php:112 | When every object gets a key, the array's keys are exactly the derived keys, and each holds the last object that got it |
| `ToArrayProperties.PositionalKey` | src/ResultSet/HydratingResultSet.php:104-106 | Without a strategy the object at position j is keyed by the decimal form of j (a named corollary of `DeriveKey`'s contract) |
| `ToArrayProperties.PositionalKeysDistinct` | src/ResultSet/HydratingResultSet.php:104-106 | Without a strategy no later object shares an object's key |
| `ToArrayProperties.PositionalKeysInOrder` | src/ResultSet/HydratingResultSet.php:104-106 | Without a strategy the keys, in object order, are "0" to "n-1", all different |
| `ToArrayProperties.PositionalEntryOrder` | src/ResultSet/HydratingResultSet.php:104-112 | Without a strategy the entries of toArray() are "0" to "n-1", in that order |
| `ToArrayProperties.ToArrayPositional` | src/ResultSet/HydratingResultSet.php:104-112 | Without a strategy toArray() never fails. Its entries are "0" to "n-1" in that order, its keys are exactly those, and key "j" holds object j |
| `ToArrayProperties.ToArrayByField` | src/ResultSet/HydratingResultSet.php:98-103 | Keyed by a field present and non-empty in every row, the keys are exactly the rows' field values as strings; a value held by one row only maps to that row's object |
| `ToArrayProperties.ToArrayByCallback` | src/ResultSet/HydratingResultSet.php:96-97 | Keyed by a callback with non-empty values, the keys are exactly the callback's values as strings; a value produced for one object only maps to that object |
| `ResultSetScenarios.CountIsRawRowCount` | test/ResultSet/HydratingResultSetTest.php:27-35 | A result with no rows that reports 123 rows gives count() == 123 |
| `ResultSetScenarios.GetResultIsGivenResult` | test/ResultSet/HydratingResultSetTest.php:40-48 | After initialize(r), getResult() is r; a failing fetch is reported instead |
| `ResultSetScenarios.InitializeHydratesEachRow` | test/ResultSet/HydratingResultSetTest.php:53-87 | Walking a set built from two rows yields their two hydrations, in row order |
| `ResultSetScenarios.SecondInitializeFails` | test/ResultSet/HydratingResultSetTest.php:92-103 | A second initialize() fails with the message "Result set already initialized!", and the first result stays in place |
| `ResultSetScenarios.FetchFailureIsWrapped` | test/ResultSet/HydratingResultSetTest.php:108-123 | A fetch failure comes back as "Failed to fetch associative data from result!" with the cause. The set stays uninitialised, so a later initialize() succeeds |
| `ResultSetScenarios.ToArrayByPositionOfTwoRows` | test/ResultSet/HydratingResultSetTest.php:152-159 | Rows Foo and Bar give ["0" => Foo, "1" => Bar], in that order |
| `ResultSetScenarios.ToArrayByFieldOfTwoRows` | test/ResultSet/HydratingResultSetTest.php:161-168 | Keyed by field "id": ["123" => Foo, "456" => Bar], in that order |
| `ResultSetScenarios.ToArrayByIdCallbackOfTwoRows` | test/ResultSet/HydratingResultSetTest.php:170-177 | Keyed by a callback reading id: ["123" => Foo, "456" => Bar], in that order |
| `ResultSetScenarios.ToArrayByNameCallbackOfTwoRows` | test/ResultSet/HydratingResultSetTest.php:179-186 | Keyed by a callback reading name: ["Foo" => Foo, "Bar" => Bar], in that order |
| `ResultSetScenarios.ToArrayOverwriteKeepsPlace` | src/ResultSet/HydratingResultSet.php:112 | Keyed by field "id" over rows with ids 2, 1, 2: ["2" => third object, "1" => second object]. The third object replaces the first in the first place |
| `ResultSetScenarios.ToArrayMissingFieldFails` | src/ResultSet/HydratingResultSet.php:99-101 | Keyed by a field no row has, toArray() fails with MissingKeyField for that field, whose message is `Result set key "email" does not exist!`, and the cursor stays on the first object |
| `ResultSetScenarios.EmptyCallbackKeyHasNoMessage` | src/ResultSet/HydratingResultSet.php:108-109 | As written: a callback whose key is null reaches the "is empty" throw, and its Closure cannot be rendered into the message |
| `ResultSetScenarios.EmptyCallbackKeyFails` | src/ResultSet/HydratingResultSet.php:108-110 | Corrected: the same call fails with EmptyKey(""), whose message is `Result set key "" is empty!` |

## Left out

- src/Gateway.php (the query gateway) is not part of this model. It runs one query on the connection, clones a
  result-set prototype and calls `initialize` on the clone; it has no logic of its own.
- src/ResultSet/ResultSetInterface.php declares signatures only.
- The Doctrine connection and result are database I/O. A raw result is a value: the answer of
  `fetchAllAssociative` (rows, or a Doctrine exception) and the answer of `rowCount` (a number, or an exception).
- The hydrator and `clone` are foreign code that works by reflection and mutation. Hydration is a total pure
  function given to the constructor, and objects are values. So cloning is the identity, and object identity,
  aliasing between the stored objects and those handed to callers, and in-place population of the clone are
  not modelled. An exception thrown by the hydrator or by a key callback is not modelled either.
- ResultSet.HydratingResultSet.Initialize: "hydrate is called exactly once per row" is not stated. Calls are
  not counted. The postcondition pins object i to the hydration of row i for every position, so there is one
  hydration per row and no other.
- PHP array-key coercion is represented by the keys' string forms. This is sound only for the keys that reach
  `$array[$key] = $object` (src/ResultSet/HydratingResultSet.php:112). Null and false cast to "" and are rejected
  as empty at line 108 before that point, so every key that arrives is true, an integer or a non-empty string.
  Among those, two keys collide in PHP exactly when their string forms are equal: true and "1" both become 1,
  "123" becomes 123, and "0123" stays distinct. The rule would be wrong for false, which PHP files under 0 while
  its string form is "", but false never gets that far. Floats and non-scalar values (arrays, objects) are not
  modelled.
- Integers are unbounded. PHP integers are 64 bits wide; no value in the model depends on that width.
- Calling `count`, `current`, `key`, `next`, `rewind`, `valid`, `getResult` or `toArray` before `initialize` is
  an uninitialised-property error in PHP. Each of these members requires an initialised set instead.
- Before initialisation PHP leaves the rows and objects unset; the model holds them as empty sequences.

## Findings

| source | as written | input that shows it | evidently intended | confidence | as-written member | corrected member |
|---|---|---|---|---|---|---|
| src/ResultSet/HydratingResultSet.php:108-110 | The "is empty" exception formats its message with the key strategy itself as the `%s` argument. For a callback strategy that argument is a Closure, which PHP cannot convert to a string, so PHP throws its own Error and no ResultSetException is thrown | `toArray(fn ($o) => $o->email)` on a set whose first object has no `email` property, so the key is null | "is empty" is reported as a ResultSetException for every strategy, as it is for field keys | high, not executed | `ResultSetScenarios.EmptyCallbackKeyHasNoMessage` (with `ResultSet.KeyLabelAsWritten`) | `ResultSet.DeriveKey` with `ResultSet.KeyLabel`, which names a callback as "" in the message. `ResultSet.HydratingResultSet.ToArray` uses them, and `ToArrayProperties.ToArrayEmptyKey` and `ResultSetScenarios.EmptyCallbackKeyFails` prove the intended "is empty" failure for every strategy |
