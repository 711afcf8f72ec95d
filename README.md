# plantuml2mysql, modelled in Dafny

plantuml2mysql turns a PlantUML class diagram into MySQL `CREATE TABLE`
statements. Its single function `parseFile` works in two stages:

- a `'line'` handler reads the diagram one line at a time and builds a schema: table key → `{tableName, pkList, columns}`;
- a `.then` callback walks that schema and appends one statement per table to a string.

This project models both stages and `getType`. It states in Dafny what they do and proves it.

The files:

- `results.dfy`: `Option` (a JavaScript value that may be `undefined`) and `Result` (a stage that completes or throws).
- `js_strings.dfy`: the string operations the code relies on:
  - `startsWith`;
  - `trim` over the full ECMAScript white-space and line-terminator set;
  - `split` on one character, and `join`;
  - `slice(4, -1)`;
  - first-letter capitalisation.
- `ordered_maps.dfy`: a JavaScript object used as a dictionary. A new key goes last; assigning an existing key keeps its place.
- `uml.dfy`: the `IColRef`, `ITableColumn`, `ITableObject` and `IUML` interfaces as datatypes, plus the well-formedness the parser guarantees.
- `parser.dfy`:
  - `Parser.Step` is the handler as a function of the closure state;
  - `Parser.LineHandler` is a class whose fields are the closure variables (`isUML`, `isTable`, the current table, the current column, the schema). Its methods mirror the handler and its `forEach` callback, and are proved against `Step`;
  - `ParseLines` feeds it every line;
  - `ParserProperties` holds what the handler guarantees.
- `generator.dfy`:
  - `Generator.ProcessTables` is the callback as a function. It threads the schema that the callback mutates in place: each referencing column's `type` is overwritten (line 133).
  - `GenerateDdl` and its helpers are the nested loops, proved equal to it.
  - `GeneratorProperties` holds what the output is.
- `pipeline.dfy`: `parseFile` as "parse, then generate".

Two references in the source are modelled by where their object is stored:

- the current table object, by its key;
- the current column object, by its table key and column key.

The column object that `currentColumn` points at stops being the one stored at that place in only one case: its table is declared again by a `class` line. The new table then has no column under that key until a new column is declared, and declaring a column moves `currentColumn`. Until then, an update through a place that holds no column is lost. That is exactly what happens to the orphaned object in the source.

## Model

| member | source | states |
|---|---|---|
| Generator.GetType | src/index.ts:31-33 | the lookup succeeds exactly when the referenced table exists and has the referenced column (an undefined column name is looked up as "undefined"); it then returns that column's current type; otherwise it is the TypeError for the missing table, or for the missing column |
| JsStrings.Trim | src/index.ts:55 | the result has no white space or line terminator at either end |
| JsStrings.TrimPadding | src/index.ts:55 | white space around a line is removed: `Trim(w1 + s + w2) == Trim(s)` |
| JsStrings.TrimIdempotent | src/index.ts:55 | trimming twice is trimming once |
| JsStrings.Split | src/index.ts:58 | `split(' ')` gives at least one piece, no piece holds the separator, and joining the pieces with the separator gives back the line |
| JsStrings.SplitJoin | src/index.ts:68 | splitting separator-free pieces joined by the separator gives back the pieces |
| JsStrings.SplitSepFree | src/index.ts:68 | a line without a space is one token |
| OrderedMaps.Empty | src/index.ts:42 | a fresh object has no keys |
| OrderedMaps.Put | src/index.ts:64 | a new key is listed last; an existing key keeps its place and only its value changes; keys stay distinct |
| OrderedMaps.PutTwice | src/index.ts:92 | assigning the same key twice leaves the second value at the first place |
| Uml.SetColumn | src/index.ts:133 | replacing a column changes neither table keys nor column keys nor any other table |
| Parser.OpenTable | src/index.ts:56-65 | a `class` line leaves a consistent state inside a table |
| Parser.NewColumn | src/index.ts:72-92 | declaring a column keeps the state consistent and stays in the same table |
| Parser.UpdateAt | src/index.ts:93-105 | an attribute update keeps the schema well-shaped |
| Parser.ColumnToken | src/index.ts:70-106 | one token keeps the state consistent, inside the same table |
| Parser.ColumnTokens | src/index.ts:68-107 | the tokens of a column line keep the state consistent, inside the same table |
| Parser.Step | src/index.ts:49-112 | every handled line keeps the state consistent; once `@startuml` has been seen it stays seen |
| Parser.InsideUml | src/index.ts:55-111 | a trimmed line after `@startuml` keeps the state consistent |
| Parser.Run | src/index.ts:49-112 | the handler over a sequence of lines keeps the state consistent |
| Parser.ColumnTokensErrStays | src/index.ts:93-105 | once a token has thrown, later tokens leave that outcome |
| Parser.RunErrStays | src/index.ts:49-112 | once a line has thrown, later lines leave that outcome |
| Parser.RunSnoc | src/index.ts:49-112 | one more line is one more `Step` from the state the earlier lines left |
| Parser.LineHandler.constructor | src/index.ts:38-42 | the closure starts outside the diagram and outside any table, with no current column and an empty schema |
| Parser.LineHandler.AddColumn | src/index.ts:73-92 | the new state is `NewColumn` of the old one: the column is stored under its name, becomes current and, for a key column, its name is pushed onto `pkList` |
| Parser.LineHandler.UpdateCurrentColumn | src/index.ts:93-105 | the new state is the old one with the token applied to the column `currentColumn` points at |
| Parser.LineHandler.OnToken | src/index.ts:70-106 | after the callback on token `index`, the state is what `ColumnTokens` gives for `index + 1` tokens; the TypeError on a missing current column is the outcome of the whole line |
| Parser.LineHandler.OnColumnLine | src/index.ts:68-107 | the `forEach` over the tokens ends in the state, or the TypeError, that `ColumnTokens` gives |
| Parser.LineHandler.OnLine | src/index.ts:49-112 | the handler ends in the state, or the TypeError, that `Step` gives |
| Parser.LineHandler.OnUmlLine | src/index.ts:55-110 | a line after `@startuml`, once trimmed, ends in the state or the TypeError that `InsideUml` gives |
| Parser.LineHandler.OpenClass | src/index.ts:57-64 | the new state is `OpenTable` of the old one |
| Parser.ParseLines | src/index.ts:49-116 | the schema the promise resolves with, or the TypeError, is `Parse(lines)` |
| ParserProperties.AttributesSummary | src/index.ts:93-105 | after any attribute tokens: name and primary-key flag are unchanged; NOT NULL is set exactly when `NN` occurs; AUTO_INCREMENT is set exactly when `AUTO_INCREMENT` occurs; the last type token gives the type and the last `REF(` token gives the reference |
| ParserProperties.AttributesAtSnoc | src/index.ts:93-105 | one more attribute token is one more callback on the current column |
| ParserProperties.ColumnTokensSplit | src/index.ts:69-107 | the first token is handled on its own; every later token updates whatever column is current after it |
| ParserProperties.ColumnLineDeclares | src/index.ts:67-107 | inside a table, a line other than `}` whose first token is not `..` (a blank line and a `class` line included) declares the column its first token names: key = name; a `#`/`+` prefix marks a primary key and appends to `pkList`; a `-` prefix is stripped; the column has exactly the attributes of its tokens, keeps its key's place and becomes current |
| ParserProperties.DeclaredColumn | src/index.ts:72-105 | the attribute tokens of a declaring line land on the column the line declared |
| ParserProperties.DotDotSkipsOnlyItself | src/index.ts:81-82 | a `..` first token only skips itself: later tokens still update the previously current column, and throw when there is none |
| ParserProperties.BlankLineDeclaresEmptyColumn | src/index.ts:67-92 | a blank line inside a table declares a column named "" with no attributes |
| ParserProperties.PaddingIgnored | src/index.ts:55 | after `@startuml`, white space around a line changes nothing |
| ParserProperties.RefTokenTarget | src/index.ts:97-102 | `REF(t.c` followed by any last character references table `t` with its first letter capitalised and column `c`; the last character is dropped whatever it is |
| ParserProperties.RefTokenWithoutColumn | src/index.ts:98-101 | without a `.` the referenced column is undefined |
| ParserProperties.RunAppend | src/index.ts:49-112 | handling `a + b` is handling `a`, then `b` from where `a` left the handler |
| ParserProperties.PreambleIgnored | src/index.ts:50-54 | before `@startuml`, every line that does not start with it is ignored |
| ParserProperties.StartMarker | src/index.ts:50-53 | the first line starting with `@startuml` turns the handler on and does nothing else; the rest is handled from there |
| ParserProperties.RunStaysInUml | src/index.ts:50-54 | once on, the handler stays on |
| ParserProperties.ClassLineOpensTable | src/index.ts:56-65 | `class N {` outside a table enters a table keyed `N` with name `N`, an empty `pkList` and no columns; an existing table `N` is replaced in its place |
| ParserProperties.ClassLineWithoutName | src/index.ts:56-65 | a `class` line without a second token registers its table under "undefined" with an undefined name |
| ParserProperties.InertOutsideTables | src/index.ts:50-111 | outside a table, a line that is neither the start marker nor a `class` line changes nothing |
| ParserProperties.CloseBraceEndsTable | src/index.ts:108-110 | inside a table, `}` leaves the table and changes neither the schema nor the current column |
| ParserProperties.NewColumnWellFormed | src/index.ts:72-92 | declaring a column keeps every column under its own name and every primary key in `pkList` |
| ParserProperties.UpdateAtWellFormed | src/index.ts:93-105 | attribute tokens never touch a column's name or primary-key flag |
| ParserProperties.ColumnTokensWellFormed | src/index.ts:68-107 | a column line keeps the schema well-formed |
| ParserProperties.StepWellFormed | src/index.ts:49-112 | every line keeps tables under their own name and columns under their own name, and keeps `pkList` naming every primary-key column and only existing columns |
| ParserProperties.ParsedWellFormed | src/index.ts:49-116 | whatever the diagram, the schema handed to the generator is well-formed |
| Generator.ResolveColumn | src/index.ts:132-133 | a column resolves exactly when it has no reference or its reference resolves; only its type changes; a referencing column gets the type its target has at that moment |
| Generator.ColumnStep | src/index.ts:130-137 | one column step changes only types of referencing columns, no other table, and adds exactly one column clause |
| Generator.ProcessColumns | src/index.ts:129-138 | the inner loop changes only types of referencing columns and no other table, and yields one clause per column |
| Generator.TableStep | src/index.ts:123-146 | one table step changes only types of referencing columns |
| Generator.ProcessTables | src/index.ts:121-147 | the outer loop changes only types of referencing columns |
| Generator.ProcessColumnsNext | src/index.ts:129-138 | after `j` columns, the next column exists; a TypeError on it is the outcome of the whole table |
| Generator.ProcessColumnsErrStays | src/index.ts:129-138 | a TypeError ends the inner loop |
| Generator.ProcessTablesErrStays | src/index.ts:122-147 | a TypeError ends the outer loop |
| Generator.SetRefType | src/index.ts:133 | writing a type into a referencing column changes only its type |
| Generator.EmitColumn | src/index.ts:130-137 | the body of the inner `forEach` ends in the state, or the TypeError, that `ColumnStep` gives |
| Generator.EmitColumns | src/index.ts:127-138 | the inner `forEach` ends in the schema, clauses and foreign keys, or the TypeError, that `ProcessColumns` gives |
| Generator.EmitTable | src/index.ts:123-146 | the outer `forEach` body appends exactly `TableBlock` of the table's clauses and foreign keys to `createStatement` |
| Generator.AppendTableBlock | src/index.ts:126-145 | the four `+=` of a table append one whole statement |
| Generator.GenerateDdl | src/index.ts:119-149 | the callback returns the string, or throws the TypeError, that `Generate` gives |
| GeneratorProperties.GenerateOk | src/index.ts:31-33 | the callback returns a string exactly when every reference in the schema leads to an existing column; otherwise it throws |
| GeneratorProperties.GenerateRenders | src/index.ts:120-148 | the string is one `CREATE TABLE IF NOT EXISTS` statement per table key, in key order. In each, the column clauses come in column key order, each rendering its column as the callback left it, and one FOREIGN KEY clause follows per referencing column, in column order, after `,\n` and only when there is one. The empty schema gives the empty string |
| GeneratorProperties.ResolvedTypes | src/index.ts:132-134 | the callback changes nothing but the types of referencing columns; a column whose reference leads to a column without a reference ends with that column's type |
| GeneratorProperties.ColumnStepType | src/index.ts:132-133 | a column step completes exactly when the column's reference resolves; a column without a reference is left as it is; a referencing column gets the type its target has at the moment the column is reached, which for a target that is itself a reference not yet reached is not its final type |
| GeneratorProperties.ColumnLineWords | src/index.ts:136 | a column clause splits into its key, its type, `AUTO_INCREMENT` only if flagged and `PRIMARY KEY` only for a key column; NOT NULL leaves no word |
| GeneratorProperties.ProcessColumnsOk | src/index.ts:129-138 | the inner loop completes exactly when every reference among its columns resolves |
| GeneratorProperties.ProcessTablesOk | src/index.ts:122-147 | the outer loop completes exactly when every reference of its tables resolves |
| GeneratorProperties.TableStepOk | src/index.ts:123-146 | a table completes exactly when its own references resolve in the original schema |
| GeneratorProperties.ColumnStepFrame | src/index.ts:130-137 | a column step adds the clause of its column as it leaves it, and changes no other column |
| GeneratorProperties.ColumnStepForeignKey | src/index.ts:132-135 | a column step adds a FOREIGN KEY clause exactly when the column has a reference |
| GeneratorProperties.ProcessColumnsForeignKeys | src/index.ts:129-144 | the foreign keys of a table are one clause per referencing column, in column order |
| GeneratorProperties.ProcessColumnsLines | src/index.ts:129-140 | clause `i` renders column `i` as the table leaves it |
| GeneratorProperties.ColumnStepLines | src/index.ts:136 | one column step keeps every earlier clause rendering its column |
| GeneratorProperties.ProcessColumnsPlainTargets | src/index.ts:129-138 | after a table, each column of it whose target has no reference has the target's type |
| GeneratorProperties.ProcessTablesRenders | src/index.ts:122-147 | after the outer loop, `createStatement` is the rendering of the tables done |
| GeneratorProperties.TableStepRenders | src/index.ts:123-146 | one table step extends the rendering by that table |
| GeneratorProperties.TableStepBlock | src/index.ts:126-145 | a table's statement renders its columns as the inner loop leaves them |
| GeneratorProperties.RenderFrame | src/index.ts:120-148 | the rendering of some tables reads those tables only |
| GeneratorProperties.RefClausesSame | src/index.ts:134 | foreign-key clauses depend only on names and references, which the callback never changes |
| GeneratorProperties.ProcessTablesPlainTargets | src/index.ts:122-147 | after the outer loop, every column whose target has no reference has the target's type |
| Pipeline.Convert | src/index.ts:35-150 | a conversion that throws in the handler reports that error; a conversion that succeeds parsed the diagram |
| Pipeline.ParseFile | src/index.ts:35-150 | parsing the lines and then generating gives `Convert(lines)` |
| Pipeline.ConvertOk | src/index.ts:35-150 | a file converts exactly when the handler never throws and every reference of the parsed schema leads to an existing column |
| Pipeline.ConvertRenders | src/index.ts:35-150 | a converted file gives one statement per table in declaration order, each listing its columns in declaration order |

## Left out

- File and stream handling: `path.join`, `fs.createReadStream`, `readline` and the `'close'` event (src/index.ts:1-3, 43-47, 114-116). The model takes the file's lines as a `seq<string>`. How `readline` splits a byte stream into lines is not modelled.
- The `Promise` wiring (src/index.ts:36-37, 118). A TypeError thrown by the handler, or by the `.then` callback, is an `Err` value, not an exception or a rejected promise.
- `Object.keys` puts integer-like keys first, in numeric order. The model lists keys in first-assignment order.
- Inherited and special properties of a plain object (`constructor`, `__proto__`, ...) are not modelled: every key is an own key of the schema.
- `toUpperCase` is modelled on ASCII `a`–`z` only. Other letters are left as they are, where JavaScript would map them (and sometimes lengthen the string).
- JavaScript strings are UTF-16 code-unit sequences. The model uses Dafny characters, so indexing into a string containing characters outside the Basic Multilingual Plane is not modelled.
- The documentation of the project says references are resolved transitively, and its example output shows `NN` columns rendered NOT NULL. The code resolves one level deep in processing order (`ColumnStepType`) and never renders NOT NULL (`ColumnLineWords`). The model follows the code.
- GeneratorProperties.ResolvedTypes: states the resulting type only for columns whose target has no reference of its own. For a chain, the type depends on key order, and `ColumnStepType` states it step by step.
- GeneratorProperties.ColumnLineWords: requires a key and a type without spaces. The parser never produces them with spaces, because it splits on spaces.
