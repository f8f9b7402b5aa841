# Typed table accessor: column typing, schema loading and row materialisation

This project models the core of `Table`, a typed accessor over one SQL table
in an Onset game-server script. The accessor is written in TypeScript and
compiled to Lua. `Table` does three things. It asks the database for the
table's columns and keeps a map from column name to column type. Only
columns whose reported type it recognises are kept. It turns each row of a
query result into an entry that has exactly the mapped columns, each read
with the getter for that column's type. And it classifies a reported type
string by lower-casing it and testing three prefixes: `int` gives INT,
`varchar` gives STRING, `float` gives FLOAT, and anything else gives no type.

The model has two modules:

- `ColumnTypes` (`column_type.dfy`): the `ColumnType` enumeration and the
  classifier `GetColumnType`, a pure function. It comes with lemmas on case
  insensitivity, matching by prefix, and the type names this revision does
  not recognise.
- `Tables` (`table.dfy`): the class `Table` with its `columns` map. The
  catalogue callback is the method `LoadSchema`. It is proved against the
  function `LoadedSchema`, and lemmas state which names end up in the schema
  and with which type. The query callback is the method `Get`, whose inner
  per-column loop is `ReadEntry`. `Get` is proved to give one entry per
  cursor row, in cursor order, each with exactly the schema's keys.

The database is abstracted. A result set is the sequence of rows its cursor
yields, in cursor order. A `Row` is the result set's three typed getters,
`getString`, `getInt` and `getFloat`, each a function from a column name to
a value. A float is an uninterpreted 64-bit pattern. The callbacks become
methods that take the row sequence as a parameter. The result that `get`
passes to its `out` callback is `Get`'s return value.

This revision recognises only `int`, `varchar` and `float`. `bigint`,
`tinyint`, `text` and `double` get no type (`UnrecognisedTypes`).

## Model

| member | source | states |
|---|---|---|
| `ColumnTypes.LowerChar` | onset/server/Table.ts:40 | lower-casing one character maps 'A'..'Z' to the matching lower-case letter (code point + 32), leaves every other character alone, and never yields an upper-case letter |
| `ColumnTypes.Lower` | onset/server/Table.ts:40 | the lower-cased string has the input's length and, at every position, the lower-cased character of the input |
| `ColumnTypes.PrefixesDisjoint` | onset/server/Table.ts:41-46 | no string starts with two of `int`, `varchar` and `float`, so the order of the three tests cannot change a result |
| `ColumnTypes.GetColumnType` | onset/server/Table.ts:39-48 | the result is INT iff the lower-cased input starts with `int`, STRING iff it starts with `varchar`, FLOAT iff it starts with `float`, and no type iff it starts with none of them |
| `ColumnTypes.CaseInsensitive` | onset/server/Table.ts:40 | two inputs equal after lower-casing each character get the same classification |
| `ColumnTypes.CaseFoldingInvariant` | onset/server/Table.ts:40 | lower-casing or upper-casing the input first leaves its classification unchanged |
| `ColumnTypes.FoldsToPrefix` | onset/server/Table.ts:40-46 | a string whose first characters lower-case to a keyword starts, after lower-casing, with that keyword |
| `ColumnTypes.KeywordThenAnything` | onset/server/Table.ts:41-46 | `int…`, `INT…`, `varchar…`, `VARCHAR…`, `float…`, `FLOAT…` with any suffix classify as INT, STRING, FLOAT respectively |
| `ColumnTypes.NoKeywordHead` | onset/server/Table.ts:39-48 | an empty input, or one whose first character lower-cases to none of 'i', 'v', 'f', has no type |
| `ColumnTypes.UnrecognisedTypes` | onset/server/Table.ts:39-48 | `bigint(20)`, `TINYINT(1)`, `text`, `double` and the empty string have no type in this revision |
| `Tables.LoadedSchemaKeys` | onset/server/Table.ts:8-12 | a name is a key of the loaded schema iff it was one before or some catalogue row named it with a recognised type |
| `Tables.LoadedSchemaLastWins` | onset/server/Table.ts:8-12 | the type stored for a name is the classification of the last catalogue row that named it with a recognised type |
| `Tables.LoadedSchemaKeepsOthers` | onset/server/Table.ts:8-12 | a name that no row names with a recognised type keeps its presence and its type |
| `Tables.LoadedSchemaProvenance` | onset/server/Table.ts:10-11 | every stored type was there before or is the recognised classification of a row naming that column, so an unrecognised type is never stored |
| `Tables.LoadedSchemaStep` | onset/server/Table.ts:8-12 | one more catalogue row is applied after the earlier ones: skipped if its type is unrecognised, otherwise its field is set to its type |
| `Tables.ReadCell` | onset/server/Table.ts:23-29 | the body selects the getter by type as lines 23-29 do (getString for STRING, getInt for INT, getFloat for FLOAT); the ensures states the resulting tag: a cell read for a column of type t carries tag t |
| `Tables.Table.constructor` | onset/server/Table.ts:4-6 | a new accessor keeps its table name and starts with an empty column map |
| `Tables.Table.LoadSchema` | onset/server/Table.ts:8-12 | after the callback walks the catalogue rows in cursor order, `columns` is `LoadedSchema` of the old map and those rows |
| `Tables.Table.ReadEntry` | onset/server/Table.ts:21-30 | the entry of one row has exactly the schema's keys, each cell read with the getter its column's type selects, so each cell's tag is that type |
| `Tables.Table.Get` | onset/server/Table.ts:18-33 | exactly one entry per cursor row, in cursor order, each with exactly the schema's keys and each cell read with the getter for its column's type |
| `Tables.CatalogueRow` | onset/server/Table.ts:9-11 | a catalogue row reporting a given field name and type string through `getString` |
| `Tables.ExampleIntAndFloat` | onset/server/Table.ts:41-46 | `int(11)` classifies as INT and `float` as FLOAT |
| `Tables.ExampleVarchar` | onset/server/Table.ts:43-44 | `varchar(64)` classifies as STRING |
| `Tables.ExampleCatalogueRows` | onset/server/Table.ts:9-11 | what the loader reads from each row of a four-column example catalogue (id int, name varchar, score float, notes text) |
| `Tables.ThreeOfFourSchema` | onset/server/Table.ts:8-12 | a catalogue of id/INT, name/STRING, score/FLOAT and a row of unknown type loads to exactly those three columns |
| `Tables.ExampleSchema` | onset/server/Table.ts:8-12 | the example catalogue loads to `{id: INT, name: STRING, score: FLOAT}`, with the `text` column dropped |

`ColumnTypes.UpperChar` and `ColumnTypes.Upper` are helpers that build
upper-case inputs for `CaseFoldingInvariant` and `KeywordThenAnything`;
nothing in the source upper-cases a string.

`Tables.ClientScenario` is a client of `Table`. Its assertions show what a
caller can conclude from the contracts alone. A query run before the catalogue callback gives entries with no
keys. After `LoadSchema`, every entry has the three recognised columns, each
read with its own getter, and the column of unknown type is missing.

## Left out

- The database connection, `queryAsync` and the asynchronous delivery of results (Table.ts:7, 17, 35) are not modelled. `LoadSchema` and `Get` take the rows their callbacks would see, and `get`'s `out` callback gets `Get`'s result.
- The SQL text and its parameters are not modelled. This covers `SHOW COLUMNS FROM ?` with the table name as a bound parameter (Table.ts:7), the caller's query string, and `values` being passed as a single array (Table.ts:36). They belong to the connection library.
- The `con` field is not modelled, since the connection is external. `tableName` is kept as a constant field.
- The race between construction and the first query is not modelled as concurrency. The model shows only its effect: `columns` is empty until `LoadSchema` has run, and a `Get` before that yields entries with no keys.
- ColumnTypes.Lower: folds only the letters 'A' to 'Z'. The file is compiled to Lua (its `@noSelfInFile` header is a TypeScript-to-Lua directive), and there `toLowerCase` becomes Lua's byte-wise `string.lower`. JavaScript's Unicode-wide lower-casing is not modelled.
- Tables.Table.ReadEntry: each getter is a total function that returns a value of its type. A NULL cell, for which a getter could yield nil and the Lua table drop the key, is not modelled.
- `columns` is a Dafny `map`, so the insertion order of the source's `Map`, and with it the order `forEach` visits columns, is not kept. That order is not observable, because each entry is itself a key-to-value map and every key is written once.
- Float values are opaque 64-bit patterns. Floating-point semantics are not modelled. Integers from `getInt` are unbounded because the model only passes them through.
- Insert, update and delete operations are not part of this revision of the file, so they are not modelled.
