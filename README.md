# dr, modelled in Dafny

dr is a Go code generator for a small ORM. A user writes `.gp` files holding Go type
declarations. Those declarations use the extra keywords `table`, `mixin`, `subrecord` and
`relation`, plus `index(...)` blocks. dr works in three stages:

- It rewrites those lines into plain Go and parses the result.
- It links the declared relationships between tables.
- It emits a runtime library with every generated package. That library holds the placeholder
  rewriting, the scope condition builders, SELECT assembly, the record statements and the
  naming configurations.

A separate migrator turns a declared schema into DDL statements, sent through a per-dialect
driver.

This project models that core and proves properties of the model:

| module (file) | what it models |
|---|---|
| `Strings` (strings.dfy) | The parts of Go's `strings` and `strconv` the code relies on, over ASCII: `Index`, `Replace(.., 1)`, `Join`, `Split`, `TrimPrefix`, `TrimSpace`, `ToUpper`/`ToLower`, `%d` and `ParseInt(s, 10, 32)`. |
| `Gp` (gp.dfy) | Package gp: `Column`, `Relationship`, `Table` (a class, with the memoised column list) and `ActiveFile`. A struct field is its names, its printed type, the kind of its type expression and its tag. |
| `ParsePackage` (parse_package.dfy) | The `Package` of package parse: its cached name, `TableByName`, and the `Preset` that differs from gp's. The rest of parse/package.go repeats gp's code and reuses module `Gp`. |
| `ParseTables` (parse_tables.dfy) | `linkRelations` (a method over the table's relationship list) and the line rewriter of `processFile` (a loop, specified by a fold over the lines). |
| `Indexes` (index.dfy) | `ParseIndexes`, the `index(...)` block rewriter, with its four regular expressions written out. |
| `Comments` (comments.dfy) | The line classifiers of parse.go. |
| `RootPackage` (root_package.dfy) | The top-level package.go: its `Column` kinds, `Table.Columns` and `ChildColumn`. `ChildColumn` marks the first matching child column in another table in place. |
| `Lib` (lib.dfy) | The runtime library text of parse/lib.go. |
| `Naming` (naming.dfy) | The `Translator` interface and the `AppConfig`, `LowerConfig` and `PrefixConfig` configurations. |
| `Schema` (schema.dfy) | The declared schema of schema/structs.go. |
| `Catalog` (catalog.dfy) | What the migrator talks to: a database holding physical tables and their column names, and a log of the statements it was sent. It is not part of dr. `Run` says what one statement does: each statement comes with its catalog effect. A statement in `rejects` fails, and so does one the catalog forbids: creating an existing table, or altering or dropping a missing one. |
| `Systems` (systems.dfy) | The generic and SQLite dialects of migrate/systems.go, as classes over a `Catalog.SqlDB`. |
| `Migrate` (migrate.dfy) | The migration driver of migrate/migrate.go. |

Go panics that the callers are expected to avoid become preconditions. These are:

- `Package.Name` without an active file;
- `PrimaryKeyColumn` of a table without columns. The migrator reaches it only through the
  generic dialect's CREATE TABLE for a ChildOf or BelongsTo parent, so `Database.CreateTable`,
  `CreateQueued` and `Migrate` demand parent columns only under the Generic and Sqlite dialects;
- `questions(0)`;
- `In()` with no argument;
- `FindColumn` on a nil table;
- `ParseIndexes` on a block without a table line.

The panic that `linkRelations` raises for a missing parent table is modelled as an outcome of
its own, `Panicked(message)`.

Notes on what the code does:

- **The name class `[a-zA-Z0-9-_]` of index.go.** The class holds the letters, the digits,
  and `-` and `_` as literals. After the range `0-9`, a `-` cannot start another range, so it
  stands for itself; there is no range from `9` to `_`.
- **`SimpleType` in the top-level package.go.** It lacks `[]byte`, so there a `[]byte` column
  is a varchar.
- **Sized integers.** In `Column.Type`, the types `int16`, `int32` and `int64` are simple
  types but get the `varchar` of unknown types.

## Model

| member | source | states |
|---|---|---|
| Strings.IndexOf | gp/active_file.go:14 | The result is the first position where the pattern occurs, and None exactly when it occurs nowhere. |
| Strings.SplitCharJoin | parse/lib.go:55 | Splitting at a character and joining with it gives the string back; there is one piece more than there are separators, and no piece holds one. |
| Strings.ParseInt32RoundTrip | gp/column.go:153-157 | Every 32-bit integer, printed in decimal, is parsed back by ParseInt(s, 10, 32) to itself. |
| Gp.SqlType | gp/column.go:127-150 | The SQL type is "text" exactly for a string tagged type:"text", "blob" exactly for []byte, and "varchar" for every non-simple type. |
| Gp.SqlTypeCases | gp/column.go:127-150 | int is "integer", string is "text" with the tag type:"text" and "varchar" without it, &{time Time} is "timestamp", float32 is "real", float64 is "double precision", bool is "boolean" and []byte is "blob". |
| Gp.TypeTagOnlyForStrings | gp/column.go:127-150 | Only a string column's SQL type depends on the tag. |
| Gp.SizedIntsAreVarchar | gp/column.go:127-148 | int16, int32 and int64 are simple types, yet map to "varchar". |
| Gp.SqlLength | gp/column.go:152-170 | A length tag that ParseInt(s, 10, 32) accepts gives the length; otherwise the type's default applies. |
| Gp.LengthTagOverrides | gp/column.go:153-157 | A length tag holding any printed 32-bit integer n makes the length n, whatever the type. |
| Gp.LengthDefaults | gp/column.go:159-169 | Without a length tag, int is 10, string is 255 unless it is a text column (0), and every other type is 0. |
| Gp.Column.NonZeroCheck | gp/column.go:22-37 | The check is empty exactly for bool, and is " != nil" exactly for non-simple types and []byte. |
| Gp.NonZeroCheckCases | gp/column.go:22-37 | " != 0" for int, int32, int64 and int16; ` != ""` for string; ".IsZero()" for &{time Time}; " != 0.0" for float32 and float64; "" for bool; " != nil" for every other type. |
| Gp.Column.Preset | gp/column.go:39-46 | A column is preset when its type is one of int, string, bool, &{time.Time} and &{time Time} and it has neither a length nor a type tag; PresetUsesDefaults and PresetIsSimple state what follows from it. |
| Gp.Column.SimpleType | gp/column.go:48-65 | The simple types are the four int types, string, &{time Time}, float32, float64, bool and []byte; SizedIntsAreVarchar and PresetIsSimple use it. |
| Gp.Column.Type | gp/column.go:127-150 | The column's SQL type is SqlType of its Go type and tag, whose mapping SqlTypeCases states case by case. |
| Gp.Column.Length | gp/column.go:152-170 | The column's length is SqlLength of its Go type and tag, stated by LengthTagOverrides and LengthDefaults. |
| Gp.PresetUsesDefaults | gp/column.go:39-46 | A preset column has the default length and the SQL type of its Go type with an empty tag. |
| Gp.PresetIsSimple | gp/column.go:39-65 | Every preset type except the "&{time.Time}" spelling is a simple type. |
| Gp.Column.Subrecord | gp/column.go:67-77 | A simple-typed column has no subrecord; any other column has the first subrecord named as its type, or none. |
| Gp.SubrecordNamed | gp/column.go:71-76 | A subrecord is found exactly when some subrecord has that name, and it is then one of the subrecords, the one of that name. |
| Gp.Relationship.ColumnName | gp/relationship.go:30-45 | The column is alias+"ID" for an alias, parent+"ID" for ParentHasMany and HasOne, and table+"ID" for ChildHasMany and BelongsTo. It is "" exactly when there is no alias and no known kind. |
| Gp.Relationship.Name | gp/relationship.go:47-52 | The name is the alias when there is one, else the table. |
| Gp.Relationship.IsHasMany | gp/relationship.go:14-16 | The kind is "ParentHasMany"; AtMostOneKind makes the four kinds exclusive. |
| Gp.Relationship.IsChildHasMany | gp/relationship.go:18-20 | The kind is "ChildHasMany". |
| Gp.Relationship.IsHasOne | gp/relationship.go:22-24 | The kind is "HasOne". |
| Gp.Relationship.IsBelongsTo | gp/relationship.go:26-28 | The kind is "BelongsTo". |
| Gp.AtMostOneKind | gp/relationship.go:14-28 | A relationship is of at most one of the four kinds. |
| Gp.AliasColumnIsName | gp/relationship.go:30-52 | With an alias, the column name is the relationship's name followed by "ID". |
| Gp.FieldColumnsOf | gp/table.go:40-80 | An embedded field gives one unnamed column; a named field gives one column per name, in order. Each column has the field's tag, must be non-null exactly for a pointer type, and is an array exactly for a named slice field. Its Go type is a pointer's target, "[]" and the element for a named slice field, and the printed field type otherwise. |
| Gp.ColumnNamesInOrder | gp/table.go:40-80 | The columns' names are the fields' names in declaration order, with "" for each embedded field. |
| Gp.BuildColumns | gp/table.go:40-81 | The nested field and name loop produces exactly FieldColumns(fields). |
| Gp.Table.Columns | gp/table.go:38-84 | Columns returns the cached list when it is non-empty, else the list built from the fields, and leaves that list cached. |
| Gp.Table.ColumnByName | gp/table.go:19-26 | Found exactly when some column has the name; the first such column is returned, else the zero Column. The cache is not filled (value receiver). |
| Gp.ColumnNamed | gp/table.go:20-24 | The result is the first column with that name, and exists exactly when some column has it. |
| Gp.Table.RelationshipTo | gp/table.go:86-93 | Found exactly when some relationship targets the table; the first such one is returned, else the zero Relationship. |
| Gp.RelationNamed | gp/table.go:87-91 | The result is the first relationship targeting that table, and exists exactly when one does. |
| Gp.Table.PrimaryKeyColumn | gp/table.go:95-97 | The primary key is the first column of Columns(), and the list is cached. |
| Gp.Table.HasRelationship | gp/table.go:99-106 | True exactly when some relationship has the given type. |
| Gp.ActiveFile.DefName | gp/active_file.go:13-15 | Without ".gp" the name is unchanged. Otherwise only the first ".gp" becomes "_def.go", and the name grows by four characters. parse/package.go:52-54 is the same code. |
| ParsePackage.Package.Name | parse/package.go:27-32 | Name returns the name set or cached before; failing that, the first active file's package name. Afterwards that name is cached. |
| ParsePackage.Package.SetName | parse/package.go:34-36 | After SetName(n) the cached name is n, so every later Name returns n. |
| ParsePackage.Package.TableByName | parse/package.go:38-45 | Found exactly when some table has the name; the first such table is returned, else null. |
| ParsePackage.TableIn | parse/package.go:39-43 | The result is the first table with the name, is one of the tables, and exists exactly when some table has the name. |
| ParsePackage.Preset | parse/package.go:264-271 | A column is preset when its type is one of the five preset spellings and it has no length tag; PresetWiderThanGp compares it with gp's. |
| ParsePackage.PresetWiderThanGp | parse/package.go:264-271 | Every column that is preset in package gp is preset here too. The extra ones are exactly those with a type tag. |
| ParseTables.LinkRules | parse/tables.go:198-240 | An array relationship becomes ParentHasMany. A table without a <target>ID column gets HasOne. A missing parent table fails with "Table named X doesn't exist". A parent with no relationship back, or an array one, gives ChildHasMany; otherwise BelongsTo. Each kind sets the parent and child names, and the operative column is ColumnName() of the result. |
| ParseTables.RelationNamedShape | gp/table.go:86-93 | Whether a relationship to a table exists, and whether it is an array, depend only on the tables and array flags of the list. |
| ParseTables.LinkShape | parse/tables.go:219-233 | Linking takes nothing from the parent's relationships beyond their tables and array flags, so links written earlier in the loop do not change later ones. |
| ParseTables.LinkOne | parse/tables.go:200-239 | The four branches of one loop step compute Link on the table's columns and the parent's relationships. |
| ParseTables.LinkRelations | parse/tables.go:197-243 | Each relationship is replaced by its link, in list order, up to the first failure. The outcome is Linked, or the panic message of the first missing parent table. |
| ParseTables.LinkedKeepsEach | parse/tables.go:198-240 | When linking ends without panic, every relationship has been replaced by its link. |
| ParseTables.PanicKeepsRest | parse/tables.go:219-223 | On a panic, the relationships before the failing one are linked, and the failing one and all after it are unchanged. |
| ParseTables.HeaderAt | parse/tables.go:20-22 | A header match at a position names a non-empty run of letters and digits. |
| ParseTables.FindHeader | parse/tables.go:20-22 | The result is the leftmost match of "type NAME kw {", and None exactly when the line holds no match. |
| ParseTables.KindOf | parse/tables.go:255-278 | A line classified as a related-table line carries its trimmed text. |
| ParseTables.Step | parse/tables.go:280 | Every line read appends exactly one line, its rewritten text, to the output. |
| ParseTables.ProcessLines | parse/tables.go:245-281 | The loop's tables, mixins, subrecords and output are those of the fold Run over the lines. |
| ParseTables.OneLinePerLine | parse/tables.go:251-281 | The output has one line per input line and keeps what was there before. |
| ParseTables.OutputAt | parse/tables.go:251-281 | Output line i is line i rewritten in the relation state reached after the lines before it. |
| ParseTables.BlockNumbering | parse/tables.go:268-277 | Inside a relation block, the one-word type lines become DRRelated1 T1, DRRelated2 T2, ... in order, and the counter ends one past their number. |
| ParseTables.StepRelated | parse/tables.go:273-277 | A related-table line becomes "DRRelated<n> <name>" and advances the counter. |
| ParseTables.NumberedKind | parse/tables.go:273-274 | Inside a block, a trimmed one-word line starting with a letter or "[" is a related-table line. |
| ParseTables.RelationOpens | parse/tables.go:268-270 | A "relation {" line, when no header matches, becomes "DRRelation struct {" and sets the counter to 1. It records no table, mixin or subrecord. |
| ParseTables.RelationCloses | parse/tables.go:271-272 | A closing "}" inside a block is kept as it is and ends the block. |
| ParseTables.SubrecordHeaderLine | parse/tables.go:256-259 | A subrecord header records the subrecord's name and has its first " subrecord " replaced by " struct ", whatever the mixin and table patterns find; the other lists and the counter stay. |
| ParseTables.MixinHeaderLine | parse/tables.go:260-263 | A mixin header that is no subrecord header records the mixin's name and has its first " mixin " replaced by " struct ", whatever the table pattern finds; the other lists and the counter stay. |
| ParseTables.TableHeaderLine | parse/tables.go:264-267 | A table header that is neither a subrecord nor a mixin header records the table's name and has its first " table " replaced by " struct "; the other lists and the counter stay. |
| ParseTables.HeaderFound | parse/tables.go:19-21 | "type NAME KEYWORD {" followed by anything is found as a header for NAME by the pattern of that keyword, for table, mixin and subrecord alike. |
| Indexes.CoreOf | index.go:10-14 | The blank runs at the ends of a line are what the patterns' ^\s* and \s*$ absorb. |
| Indexes.NamePatternOf | index.go:10 | A name alone is a column line. |
| Indexes.NameTablePatternOf | index.go:13 | A name, a blank run and a table name is a table line reporting both. |
| Indexes.LastRepeatOf | index.go:11 | Against a comma list, the repeated group reports only its last iteration. |
| Indexes.LastRepeatAndTableOf | index.go:14 | The same holds for a comma list followed by a table name. |
| Indexes.ListPatternOf | index.go:11 | A comma list is a list line reporting its first name and its last iteration, and is not a single-name line. |
| Indexes.ListTablePatternOf | index.go:14 | A comma list, a blank run and a table is a table line reporting the first name, the last iteration and the table. |
| Indexes.ListTableNotNameTable | index.go:13-14 | Such a line does not match the single-name table pattern. |
| Indexes.ColumnList | index.go:53-60 | The submatch loop builds exactly ListEntry of the submatches. |
| Indexes.ListEntryPair | index.go:53-60 | Two submatches give two quoted names, each without its leading ", ". |
| Indexes.ListEntryOfList | index.go:53-60 | The submatches of a list line give the first and last names, quoted. |
| Indexes.StartLine | index.go:23-44 | One step of the first loop reports whether the line is a table line. A table line yields its two lines; any other line is kept. |
| Indexes.BodyLine | index.go:48-64 | One step of the second loop yields BodyLineOutput of the line. |
| Indexes.FirstTableLine | index.go:21-46 | The first loop stops at the first table line after the opening line. |
| Indexes.ParseIndexes | index.go:17-69 | The result is the output lines joined with newlines: the opening line with its first "index" replaced, then the loops' lines. |
| Indexes.IndexOutputLength | index.go:17-68 | The output has one line more than the input, and the first is the opening line with its first "index" replaced by the RegisterIndexes call. |
| Indexes.BeforeTableLine | index.go:42-45 | Lines before the first table line are copied in place. |
| Indexes.AtTableLine | index.go:23-41 | The table line yields the "T{}," entry and its column list, in its own place. |
| Indexes.AfterTableLine | index.go:47-66 | Every later line yields one line, one place further on. |
| Indexes.StartOutputSplit | index.go:21-66 | Seen from any position, the loops' output splits into three parts: the lines before the table line as they are, the table line's two lines, and one line per later line. |
| Indexes.PassThrough | index.go:21-66 | A line not starting with a name character is neither a table line nor rewritten. |
| Indexes.BodyLineOfName | index.go:48-50 | A later one-name line becomes []string{"name"},. |
| Indexes.BodyLineOfList | index.go:51-61 | A later comma-list line keeps only its first and last names. |
| Indexes.TableLineOfName | index.go:23-27 | A name-and-table line yields "T{}," then the one-name list. |
| Indexes.TableLineOfList | index.go:28-41 | A list-and-table line yields "T{}," then the list of its first and last names. |
| Indexes.ThreeNamesLoseMiddle | index.go:51-61 | As written, "a, b, c" yields the list of a and c. |
| Indexes.RepeatNames | index.go:11 | The all-names reading of the repeated group accepts exactly what the regular expression accepts, and yields names. |
| Indexes.RepeatNamesOf | index.go:11 | On a comma list it yields every name of the list. |
| Indexes.ListNames | index.go:11 | The all-names reading of the list pattern accepts exactly the list lines, with the same first name. |
| Indexes.ListNamesOf | index.go:11 | On a comma list it yields the first name followed by every other name. |
| Indexes.IntendedBodyLineOfList | index.go:51-61 | With all names kept, a later list line yields the list of all its names. |
| Indexes.IntendedAgreesOnPairs | index.go:51-61 | On two names the all-names reading agrees with the code. |
| Indexes.ThreeNamesKept | index.go:51-61 | With all names kept, "a, b, c" yields the list of a, b and c. |
| Indexes.ListEntryTriple | index.go:53-60 | Three names are quoted and separated as the loop does. |
| Comments.IsComment | parse.go:5-7 | The trimmed line starts with "//"; SlashesStartComment, IndentedComment and IndentIgnored state its behaviour. |
| Comments.StartsMultilineComment | parse.go:9-11 | The trimmed line starts with the block-comment opener; CommentKindsExclusive and IndentIgnored relate it to IsComment. |
| Comments.EndsMultilineComment | parse.go:13-16 | The flag is true exactly when "*/" occurs in the line, and the line is returned unchanged. |
| Comments.Consume | parse.go:18-20 | Consume never consumes: false and the line itself. |
| Comments.CommentKindsExclusive | parse.go:5-11 | No line is both a line comment and the start of a block comment. |
| Comments.IndentIgnored | parse.go:5-11 | Leading white space changes neither classification. |
| Comments.SlashesStartComment | parse.go:5-7 | A line starting with "//" is a comment. |
| Comments.IndentedComment | parse.go:5-7 | An indented "//" line is a comment. |
| RootPackage.Column.Type | package.go:142-163 | The SQL type is gp's, except that []byte is "varchar" here. |
| RootPackage.Column.SimpleType | package.go:125-140 | The simple types are gp's without []byte. |
| RootPackage.Column.IsHasMany | package.go:165-170 | A non-simple array column without a through tag; ParentKinds makes the parent kinds exclusive. |
| RootPackage.Column.IsChildHasMany | package.go:172-174 | The column has a parent column and is marked has-many; ChildKinds makes the child kinds exclusive. |
| RootPackage.Column.IsHasOne | package.go:176-181 | A non-simple column that is no array and has no through tag. |
| RootPackage.Column.IsBelongsTo | package.go:183-185 | The column has a parent column and is not marked has-many. |
| RootPackage.Column.IsHasManyThrough | package.go:186-191 | A non-simple array column with a through tag. |
| RootPackage.Column.Length | package.go:230-248 | The length is gp's SqlLength, as LengthAsGp states. |
| RootPackage.ParentKinds | package.go:165-191 | A simple-typed column is no parent kind. For a non-simple one, a parent kind holds exactly when it is an array or has no through tag, and the three kinds are mutually exclusive. |
| RootPackage.ChildKinds | package.go:172-185 | A column is a child kind exactly when it has a parent column, and is never both kinds. |
| RootPackage.LengthAsGp | package.go:230-248 | The length rules are gp's. |
| RootPackage.FieldColumns | package.go:75-108 | One column per field name, in order, each without a parent column; an embedded field gives none. Each column has its field's tag, the pointer's target or the slice's bare element (no "[]") or else the printed type as Go type, is non-null exactly for a pointer and an array exactly for a slice. |
| RootPackage.EmbeddedGiveNone | package.go:77-78 | Fields without names give no column at all. |
| RootPackage.BuildColumns | package.go:77-105 | The field and name loop produces exactly FieldColumns(fields). |
| RootPackage.Table.Columns | package.go:75-108 | Columns returns the cached list when it is non-empty, else the built one, and leaves that list cached. |
| RootPackage.Table.PrimaryKeyColumn | package.go:110-112 | The primary key is the first column of Columns(). |
| RootPackage.Package.Name | package.go:19-21 | The name is the first active file's package name. |
| RootPackage.FirstCandidate | package.go:198-199 | The result is the first column that qualifies, and None exactly when none does. |
| RootPackage.Target | package.go:196-209 | The result is the first table of the column's type that holds a qualifying column, together with that column's position. |
| RootPackage.Marked | package.go:200-204 | The child column becomes ChildHasMany when the parent column is an array or it already was, and BelongsTo otherwise. Its name, type and tag are kept. |
| RootPackage.LinkFirst | package.go:196-210 | Exactly the first qualifying column of the first matching table is marked, and its name is returned. Nothing else changes, and "" comes back when no such column exists. |
| RootPackage.ChildColumn | package.go:193-228 | A column-tag match is tried first, and the owner-prefix match only when it fails. The one column found is marked and its name returned. When neither finds one, nothing changes and the result is "". |
| Lib.FormatQuery | parse/lib.go:50-63 | Unchanged without reformatting; otherwise the k-th "?" becomes "$k", with the rest kept. |
| Lib.AssembleSplit | parse/lib.go:55-62 | Splitting at "?" and appending $1, $2, ... to every piece but the last is the placeholder rewrite. |
| Lib.PlaceholdersLeaveNoQuestionMark | parse/lib.go:50-63 | After rewriting no "?" remains. |
| Lib.PlaceholdersIdentity | parse/lib.go:50-63 | A query without "?" is unchanged. |
| Lib.PlaceholdersAppend | parse/lib.go:55-62 | Rewriting a concatenation numbers the second half after the first. |
| Lib.PlaceholderNumbering | parse/lib.go:57-58 | The "?" after a prefix with m marks becomes "$(m+1)". |
| Lib.Questions | parse/lib.go:555-565 | The byte loop yields n "?" separated by ",". |
| Lib.QuestionListShape | parse/lib.go:555-565 | The result has length 2n-1, with "?" at even and "," at odd positions. |
| Lib.QuestionListCount | parse/lib.go:555-565 | It holds exactly n placeholders. |
| Lib.Condition.ToSQL | parse/lib.go:548-553 | The condition's text: its operator text alone without a column, else the column, a space and the operator text; ToSQLShape states it. |
| Lib.ToSQLShape | parse/lib.go:548-553 | A condition renders as its operator text, prefixed by "column " exactly when a column is set. |
| Lib.ConditionCount | parse/lib.go:548-553 | A column without "?" adds no placeholder to a condition. |
| Lib.ListPlaceholdersCount | parse/lib.go:252-255 | The IN list holds one "?" per value, but a single one for no values. |
| Lib.Scope.Add | parse/lib.go:167-168 | A builder appends one condition and changes nothing else in the scope. |
| Lib.Scope.Eq | parse/lib.go:158-169 | Appends "IS NULL" for nil, else "= ?" with the value, on the current column; BuildersAppendOne and EqualityBalanced state it. |
| Lib.Scope.Neq | parse/lib.go:171-182 | Appends "IS NOT NULL" for nil, else "<> ?" with the value; BuildersAppendOne and EqualityBalanced state it. |
| Lib.Scope.Gt | parse/lib.go:184-192 | Appends "> ?" with the value; ComparisonsBalanced counts its one "?". |
| Lib.Scope.Gte | parse/lib.go:194-202 | Appends ">= ?" with the value; ComparisonsBalanced counts its one "?". |
| Lib.Scope.Lt | parse/lib.go:204-212 | Appends "< ?" with the value; ComparisonsBalanced counts its one "?". |
| Lib.Scope.Lte | parse/lib.go:214-223 | Appends "<= ?" with the value; ComparisonsBalanced counts its one "?". |
| Lib.Scope.Between | parse/lib.go:229-238 | Appends "BETWEEN ? AND ?" with both bounds; RangeAndLikeBalanced counts its two "?". |
| Lib.Scope.InAsWritten | parse/lib.go:241-261 | The In code as written: with one or more arguments they are bound as they come, a list included; InAsWrittenKeepsList shows it. |
| Lib.Scope.In | parse/lib.go:241-261 | The corrected In: a single list argument is spread; ListBuildersBalanced counts one "?" per value when there is one. |
| Lib.Scope.NotIn | parse/lib.go:263-273 | Appends "NOT IN (?, ..., ?)" with the values; ListBuildersBalanced counts one "?" per value when there is one. |
| Lib.Scope.Like | parse/lib.go:275-284 | Appends "LIKE ?" with the pattern string; RangeAndLikeBalanced counts its one "?". |
| Lib.Scope.Where | parse/lib.go:286-293 | Appends the caller's SQL and values with no column; BuildersAppendOne states it. |
| Lib.BuildersAppendOne | parse/lib.go:158-293 | Every builder appends exactly one condition. Column and operator are its own; Eq/Neq of nil give IS NULL / IS NOT NULL with no value. The values are as given, In spreading a single list. |
| Lib.EqualityBalanced | parse/lib.go:158-182 | Eq and Neq render one "?" per value they carry. |
| Lib.ComparisonsBalanced | parse/lib.go:184-227 | Gt, Gte, Lt and Lte render one "?" for their value. |
| Lib.RangeAndLikeBalanced | parse/lib.go:230-284 | Between renders two "?" for its bounds, Like one. |
| Lib.ListBuildersBalanced | parse/lib.go:241-273 | In and NotIn render one "?" per value exactly when they carry at least one value. |
| Lib.InAsWrittenKeepsList | parse/lib.go:241-261 | As written, In of one list argument renders "IN (?)" with the whole list as its single value; the intended In renders "IN (?, ?)" for a two-element list. |
| Lib.ConditionsBalanced | parse/lib.go:148-156 | With every condition balanced, the joined WHERE text has one "?" per collected value. |
| Lib.ConditionSQL | parse/lib.go:148-156 | The texts are joined with " AND ", and the values concatenated in condition order. |
| Lib.Query | parse/lib.go:95-146 | The SELECT clauses come in their order, and the values are the conditions' values then the HAVING values. The HAVING values are dropped when there is no HAVING. |
| Lib.PlainQuery | parse/lib.go:101-111 | A bare scope gives "SELECT t.* FROM t". |
| Lib.QueryBeginning | parse/lib.go:99-117 | The query starts with SELECT, FROM and the joins, then WHERE and the conditions. |
| Lib.QueryEnding | parse/lib.go:137-145 | LIMIT and OFFSET come last, OFFSET after LIMIT. |
| Lib.Includes | parse/lib.go:533-540 | True exactly when the string is in the array. |
| Lib.CreateRecordSQL | parse/lib.go:690-698 | The INSERT names the translated table and the columns, holds one "?" per column, and returns the key when the connection asks for it. |
| Lib.InsertPlaceholders | parse/lib.go:690-698 | The INSERT has exactly one "?" per column. |
| Lib.UpdateRecordSQL | parse/lib.go:714-723 | The UPDATE of the translated table and key column; UpdatePlaceholders counts its "?". |
| Lib.UpdatePlaceholders | parse/lib.go:714-723 | The UPDATE has one "?" per column plus one for the key. |
| Lib.DeleteRecordSQL | parse/lib.go:725-734 | The DELETE of the translated table and key column; DeletePlaceholders counts its "?". |
| Lib.DeletePlaceholders | parse/lib.go:725-734 | The DELETE has a single "?". |
| Lib.DefaultColumnsRender | parse/lib.go:674-688 | DefaultInt is usable as an integer primary key (or INTEGER(10) elsewhere); the others render VARCHAR(255), BOOL and TIMESTAMP. |
| Naming.AppConfig.SQLTable | parse/lib.go:769-777 | A table override wins, then Normal, and without Normal the name stays itself. |
| Naming.AppConfig.SQLColumn | parse/lib.go:779-789 | A column override for that table wins, then Normal, and without Normal the name stays itself. |
| Naming.NewAppConfig | parse/lib.go:761-767 | A new configuration maps every table and column name to itself. |
| Naming.OverrideWins | parse/lib.go:769-789 | Given a Normal translator, overrides win and every other name is what Normal makes of it. |
| Naming.PrefixConfig.SQLTable | parse/lib.go:806-808 | The result starts with the prefix, followed by the name. |
| Naming.PrefixConfig.SQLColumn | parse/lib.go:810-812 | The result starts with the prefix, followed by the column name. |
| Naming.LowerConfig | parse/lib.go:791-799 | Table and column names are lower-cased, and the table is ignored for a column; LowerIdempotent and LowerHasNoUpper state it. |
| Naming.LowerIdempotent | parse/lib.go:793-795 | Lower-casing twice is lower-casing once. |
| Naming.LowerHasNoUpper | parse/lib.go:797-799 | A lower-cased name holds no upper-case letter. |
| Schema.Table.AddIndex | schema/structs.go:30-33 | The indexes are appended in argument order, and the same table is returned. |
| Schema.Table.FindColumn | schema/structs.go:35-46 | The result is the first column with the name, or None. |
| Schema.ColumnNamed | schema/structs.go:39-43 | The result is the first column with that name, or None exactly when no column has it. |
| Schema.Table.PrimaryKeyColumn | schema/structs.go:48-50 | The primary key is the first column; the requires is the index panic of an empty column list. PrimaryKeyFound states that FindColumn finds it by its name. |
| Schema.PrimaryKeyFound | schema/structs.go:48-50 | Looking up the primary key's name finds the primary key. |
| Systems.GenericDB.HasTable | migrate/systems.go:18-20 | Always false, with the "Need a RDBMS-specific" error. |
| Systems.GenericDB.HasColumn | migrate/systems.go:98-100 | Always false, with the same error. |
| Systems.GenericDB.BuildColumnDefs | migrate/systems.go:29-54 | One definition per column, in order. |
| Systems.GenericDB.BuildChildOfDefs | migrate/systems.go:55-65 | One FOREIGN KEY per ChildOf relationship, in order. |
| Systems.GenericDB.BuildBelongsToDefs | migrate/systems.go:67-77 | One FOREIGN KEY per BelongsTo relationship, in order. |
| Systems.ChildOfDefsShape | migrate/systems.go:55-65 | There is one FOREIGN KEY per ChildOf relationship, pointing at the parent's first column. |
| Systems.BelongsToDefsShape | migrate/systems.go:67-77 | There is one FOREIGN KEY per BelongsTo relationship, pointing at the parent's first column. |
| Systems.TableDefsShape | migrate/systems.go:29-79 | The definitions are the columns, then the ChildOf keys, then the BelongsTo keys, each in its own place. |
| Systems.LengthSuffixPolicy | migrate/systems.go:31-53 | An integer first column is INTEGER PRIMARY KEY ASC without a length. Every other column gets "(n)" exactly when its length is not 0. |
| Systems.GenericDB.CreateTable | migrate/systems.go:22-84 | One CREATE TABLE statement is sent and logged, and the catalog changes as a table creation does. |
| Systems.GenericDB.RemoveTable | migrate/systems.go:86-89 | One DROP TABLE of the translated name is sent. |
| Systems.GenericDB.RenameTable | migrate/systems.go:91-96 | One ALTER TABLE ... RENAME TO statement is sent; the old name is used as given. |
| Systems.GenericDB.CreateColumn | migrate/systems.go:102-118 | One ALTER TABLE ... ADD COLUMN statement with the column definition is sent. |
| Systems.GenericDB.RenameColumn | migrate/systems.go:120-122 | Reports success, and has no modifies clause. |
| Systems.GenericDB.RemoveColumn | migrate/systems.go:124-126 | Reports success, and has no modifies clause. |
| Systems.GenericDB.ModifyColumn | migrate/systems.go:128-130 | Reports success, and has no modifies clause. |
| Systems.GenericDB.UpdateTable | migrate/systems.go:132-134 | Reports success, and has no modifies clause. |
| Systems.TableCount | migrate/systems.go:141-151 | When the count query succeeds, the count is 1 exactly when the table exists. |
| Systems.SqliteDB.HasTable | migrate/systems.go:141-151 | Fails exactly for a broken catalog; otherwise reports whether the translated table exists. |
| Systems.SqliteDB.HasColumn | migrate/systems.go:153-183 | Fails exactly for a broken catalog; otherwise reports whether the translated column is among the table's rows. |
| Systems.SqliteDB.UpdateTable | migrate/systems.go:185-202 | Each missing column is added in order, and the first error stops the update. |
| Systems.UpdatePlanSucceeds | migrate/systems.go:185-202 | After a successful update every declared column exists, and the old columns stay in front. Other tables are untouched, and exactly the missing columns were added, in order. |
| Systems.UpdatePlanIdle | migrate/systems.go:185-202 | When every column exists, nothing is sent and nothing changes. |
| Systems.CreateThenUpdateIdle | migrate/systems.go:185-202 | An update right after a successful CreateTable sends nothing. |
| Migrate.Database.UpToDate | migrate/migrate.go:46-52 | Every schema table is queued once, in some iteration order of the map, and the result is "not up to date" with no error. |
| Migrate.Database.CreateTable | migrate/migrate.go:80-85 | The generic and SQLite dialects send the CREATE TABLE statement; the others send nothing. Only the generic and SQLite dialects need every parent table to have a column, since only they look up its primary key. |
| Migrate.Database.ModifyTable | migrate/migrate.go:87-89 | Does nothing: it modifies no state. |
| Migrate.Database.PareFields | migrate/migrate.go:76-78 | Reports success. |
| Migrate.Database.CreateQueued | migrate/migrate.go:60-63 | For the generic and SQLite dialects one CREATE TABLE is sent per queued table, in queue order, and each result is ignored; the other dialects send nothing and need no parent keys. |
| Migrate.Database.Migrate | migrate/migrate.go:54-74 | The schema tables are queued, then created in queue order under the generic and SQLite dialects, and not at all under the others, which need no parent keys. ModifyTable changes nothing, and the result is success. |
| Migrate.ExecEachSendsAll | migrate/migrate.go:60-63 | Every queued statement is sent, in order, whatever the earlier ones did. |
| Migrate.CreationsMonotone | migrate/migrate.go:60-63 | Creating tables never removes a table or changes an existing one. |
| Migrate.CreationsCover | migrate/migrate.go:60-63 | Afterwards every queued table exists, unless its statement was refused. |
| Migrate.CreationsIdle | migrate/migrate.go:60-63 | When all tables exist already, the catalog is unchanged. |
| Migrate.CreationsTwice | migrate/migrate.go:54-74 | A second migration changes nothing in the catalog, though every statement is sent again. |

## Left out

- I/O is not modelled. This covers `fmt.Println` and the loggers, and reading files through
  `bufio.Scanner`: `processFile` gets its lines as a sequence. Writing the generated files
  (`OutputTemplates`, `WriteLibraryFiles`, `WriteStarterFile`) and the templates' rendering are
  left out too.
- Parsing Go source with `go/parser` is not modelled. For `ParseSrc`, `processForMixins`,
  `exciseMixins` and `processForRelations`, and the declaration loop of `processFile` after the
  rewrite, a struct is given as its fields' names, printed types, type kinds and tags.
- `Table.Columns` (gp and the top-level package) takes the struct's fields as a value. The
  `Pkg` and `Tbl` back-pointers, and a Relationship's `Parent` table, are reduced to names.
- `Column.Subcolumns` and `IterateColumns` are left out, because they use a goroutine and a
  channel.
- The mixin and subrecord accessors (`Name`, `Spec`, `File`, `Fields`) are left out. They only
  return AST nodes.
- The runtime library's joins (`outerJoin`, `innerJoin`, `joinOn`) are left out: they build SQL
  from reflection over other scopes. So are `Pluck*`, `pluckStruct`, the planner and
  reflectScanner, and `Conn.Exec`, `Query`, `QueryRow` and `Close`, which call database/sql.
- `RailsConfig` is left out, because it calls the external inflections package.
- `Translator` and the configurations are pairs of functions. A Go interface's dynamic dispatch
  is not modelled beyond that.
- Map iteration order in `UpToDate` is any order: the method returns the order it took as a
  ghost value.
- The `-pare` flag is a parameter of `Migrate`; `flag.Parse` is left out.
- Schema relationships: `ManyRelationship` and `OneRelationship` hold their `Parent` table and
  `ChildColumn` as values, never nil. So the nil-pointer panic that GenericDB.CreateTable
  (migrate/systems.go:55-77) raises for a ChildOf or BelongsTo relationship with a nil `Parent`
  or `ChildColumn` is not modelled.
- In the migrate model, a `Schema.Table`'s fields other than `Index` are constants. Only
  `AddIndex` writes a table. Cyclic relationship graphs, which the constants cannot build, are
  therefore left out.
- Database.CreateTable builds a GenericDB with two of its three fields, and the Go code
  does not compile as written. The model gives the new GenericDB the database and translator
  whose statements it sends.
- Indexes.ParseIndexes: its always-nil error result is not modelled. The table line of the
  first loop with three or more names loses the middle names too. The all-names reading covers
  the later lines only.
- Indexes.ParseIndexes: `multiIndex` accepts `,\s*`, but `TrimPrefix(match, ", ")` strips
  exactly ", ". So "A,B" yields the quoted `,B`. The model computes this, but no lemma states it.
- Strings: no Unicode. `ToUpper`, `ToLower`, `TrimSpace` and `\s` are modelled over ASCII.
- ParsePackage.Package.Name caches the package name itself. The Go code keeps a pointer into
  the active file's AST, so a later change to that AST is not seen.
- Gp.Table.ColumnByName computes the columns without caching them. Its Go value receiver
  fills only a copy's cache.
- ParseTables.ProcessLines states only what the fold computes. The relation counter at the end
  is whatever the fold reaches.

## Findings

| source | as written | input that shows it | evidently intended | confidence | as-written member | corrected member |
|---|---|---|---|---|---|---|
| parse/lib.go:241-250 | The guard that spreads a single slice argument tests `len(vals) == 0`, then indexes `vals[0]`. No arguments panic, and one slice argument is never spread. | `In([]int{1, 2})` renders `IN (?)` with the whole slice as its one value. | Test `len(vals) == 1`, so a single slice argument is spread into its elements and renders `IN (?, ?)`. | not executed | Lib.InAsWrittenKeepsList | Lib.ListBuildersBalanced |
| index.go:51-61 | `FindAllStringSubmatch` reports only the last iteration of the repeated group `(,\s*NAME)+`, so the column loop sees the first and last names only. | The index line `Name, Login, APIKey` becomes `[]string{"Name", "APIKey"},`. | Every name of the list is kept: `[]string{"Name", "Login", "APIKey"},`. | not executed | Indexes.ThreeNamesLoseMiddle | Indexes.ThreeNamesKept |
