# think-migration core, modelled in Dafny

think-migration connects the ThinkPHP framework to the Phinx migration
engine. This project models the parts of that bridge that hold logic of
their own, and proves properties about them:

- **`CREATE TABLE` builder** (`OptimizedMySqlAdapter::createTable`), in module
  `CreateTable`. It merges options in three layers. It synthesises an
  auto-increment primary key. It builds the engine, charset, collation and
  comment clauses, and assembles the statement. A method that follows the PHP
  statement by statement (loops, `rtrim`, `substr`) is proved equal to a
  declarative definition of the statement.
- **Console output bridge** (`OutputAdapter`), in module `ConsoleOutput`. It
  decodes a format/verbosity bitmask, translates Symfony console codes into
  the host framework's codes, and stores the verbosity, decorated flag and
  formatter. Calls on the host output are recorded as a list, in order.
- **Seed runner** (`seed\Run`), in module `SeedRun`. A run is the trace of
  adapter and seeder calls it makes, ending early when a seeder's `run`
  throws. A parser reads a trace back into the seeders that started and the
  error that stopped the run. The lemmas show the parser inverts every trace
  the command can produce.
- **Scaffolding commands** (`migrate\Create`, `seed\Create`), in module
  `Scaffold`. They are functions to a `Result` holding the file to write or
  the error raised. The template text goes through a model of PHP's `strtr`
  (module `Strtr`).
- **Shared command logic** (`Command`), in module `MigrationCommand`. This
  covers the database configuration, the cached adapter with its wrapper
  chain, and the directory checks.
- **Column builders** (`db\Column`), in modules `Columns` and `ColumnTypes`.
- **Input definition conversion** (`InputDefinitionAdapter::setDefinition`),
  in module `InputDefinition`.

Supporting modules:

- `Wrappers` holds `Option`, `Result` and `Outcome`.
- `Values` holds PHP option values with `isset`, truthiness and string
  conversion.
- `PhpStrings` holds the PHP string built-ins used: `rtrim`, `trim`,
  `explode(...)[0]`, `strrchr`, `implode` and integer to string.

Calls into code that is not part of this model become parameters:

- File-system queries (`is_dir`, `is_writable`, `is_file`, `realpath`,
  `file_get_contents`, whether `file_put_contents` succeeds).
- Phinx's `Util` functions.
- `class_exists` / `is_subclass_of` and a creation class's template.
- MySQL quoting and the column, index and foreign-key SQL fragments.
- The numeric values of the console constants.

Three behaviours of the code that differ from how the tool is usually
described are modelled as written:

- The engine clause is `ENGINE = <engine>`, with spaces around `=`.
- The `CHARACTER SET … COLLATE …` clause appears only when a collation is
  set.
- The prefix wrapper is applied on every adapter `getAdapter` builds. The
  derived configuration always sets `table_prefix` to a string, so the
  "no prefix" branch cannot be reached from `getDbConfig`. This is stated in
  `MigrationCommand.DerivedConfigAlwaysPrefixed`.

## Model

| member | source | states |
|---|---|---|
| Columns.Make | src/db/Column.php:38-45 | a new column has exactly the given name, type and options; it is not nullable, is signed, is not an identity and is not unique |
| Columns.SetNullable | src/db/Column.php:12-15 | sets the null flag and changes no other field |
| Columns.SetUnsigned | src/db/Column.php:17-20 | clears the signed flag and changes no other field |
| Columns.SetUnique | src/db/Column.php:22-26 | sets the unique flag and changes no other field |
| Columns.SettersRoundTrip | src/db/Column.php:12-36 | `isUnique` and `getUnique` both read back `setUnique`; `setUnsigned` is `setSigned(false)`; `setUnique` is idempotent; a fresh column is not unique |
| Columns.NamedConstructorsArePlain | src/db/Column.php:47-164 | each named constructor gives a default-flag column carrying the given name, and each constructor that only passes a type yields that type (`binary` gives `blob`); `unsignedInteger` is `integer` with only `signed` cleared |
| Columns.DefaultSizes | src/db/Column.php:62-130 | `char` and `string` default to length 255; `decimal` defaults to precision 8 and scale 2 |
| Columns.SizedVariants | src/db/Column.php:82-145 | tiny/small/medium integers use the integer type with their MySQL length limit; medium/long text use the text type with theirs; `enum` stores its values |
| CreateTable.MergeOptions | src/adapter/OptimizedMySqlAdapter.php:24-33 | each key takes its value from the table options, else from the adapter options (only for `engine`/`collation`), else from the InnoDB/`utf8_general_ci` defaults; no other adapter key gets in |
| CreateTable.IdColumn | src/adapter/OptimizedMySqlAdapter.php:42-46 | the synthesised column is an integer identity column with the given name; it is signed unless `signed` is set, in which case it follows that value's truthiness |
| CreateTable.AddPrimaryKey | src/adapter/OptimizedMySqlAdapter.php:36-50 | when `id` is unset, `true` or a string, the identity column is prepended and `primary_key` is overwritten with its name; otherwise options and columns are unchanged |
| CreateTable.PrepareColumns | src/adapter/OptimizedMySqlAdapter.php:36-50 | when `id` is unset, `true` or a string, the id column named by it is put before the pending columns and `id` and `primary_key` are set to that name; otherwise the options and columns come back unchanged |
| CreateTable.AppendEngine | src/adapter/OptimizedMySqlAdapter.php:53-57 | the options string is `ENGINE = ` followed by the `engine` option's text when it is set and not null, and `ENGINE = InnoDB` otherwise |
| CreateTable.AppendCollation | src/adapter/OptimizedMySqlAdapter.php:59-64 | with a collation set, appends ` CHARACTER SET `, a charset that is the collation's text before its first `_` (all of it when there is none), ` COLLATE ` and the collation; with none set, appends nothing |
| CreateTable.CharsetUnique | src/adapter/OptimizedMySqlAdapter.php:61-62 | a collation has exactly one such charset, and `explode('_', …)[0]` picks it |
| CreateTable.AppendComment | src/adapter/OptimizedMySqlAdapter.php:66-69 | with a comment set, appends ` COMMENT=`, the connection's quoting of the comment and a space; with none set, appends nothing |
| CreateTable.AccumulateColumns | src/adapter/OptimizedMySqlAdapter.php:73-75 | after the column loop, every column definition is followed by `, ` in column order |
| CreateTable.BuildColumnsClause | src/adapter/OptimizedMySqlAdapter.php:71-89 | the trimmed column list ends in `,` plus the primary-key clause, or drops its trailing comma when there is no primary key; with no columns the `(` itself is dropped |
| CreateTable.AppendClauses | src/adapter/OptimizedMySqlAdapter.php:92-101 | the index and foreign-key loops append each fragment after `, ` in order |
| CreateTable.BuildCreateTable | src/adapter/OptimizedMySqlAdapter.php:21-108 | the whole method computes the declarative statement |
| CreateTable.StatementLayout | src/adapter/OptimizedMySqlAdapter.php:71-104 | clause order is columns with primary key, indexes, foreign keys, `) `, options; the options start with `ENGINE =`; the statement ends in one `;` placed after a non-blank character |
| CreateTable.TrimmedOptions | src/adapter/OptimizedMySqlAdapter.php:54-69 | the engine clause is always present and opens the options string, whatever the options |
| CreateTable.DefaultCharset | src/adapter/OptimizedMySqlAdapter.php:60-63 | the default collation `utf8_general_ci` gives the charset `utf8` |
| CreateTable.DefaultOptionsString | src/adapter/OptimizedMySqlAdapter.php:24-69 | the default options give `ENGINE = InnoDB CHARACTER SET utf8 COLLATE utf8_general_ci` |
| CreateTable.DefaultTableStatement | src/adapter/OptimizedMySqlAdapter.php:24-104 | a table with no options gets an `id` identity column first, `PRIMARY KEY (id)` and the default engine and charset, in the complete statement |
| CreateTable.DefaultPrepared | src/adapter/OptimizedMySqlAdapter.php:24-50 | with no table options and no adapter engine or collation, the merged options are InnoDB and `utf8_general_ci` with no comment, `primary_key` becomes `id`, and the `id` column is placed first |
| CreateTable.IdColumnsClause | src/adapter/OptimizedMySqlAdapter.php:71-86 | with at least one column and `primary_key` `id`, the column list is every definition joined by `, `, then `,` and `PRIMARY KEY (` the quoted `id` `)` |
| CreateTable.ListPrimaryKey | src/adapter/OptimizedMySqlAdapter.php:78-85 | with `id => false` and a list `primary_key`, no column is added and the key lists the quoted names joined by `,` in order |
| PhpStrings.BeforeFirst | src/adapter/OptimizedMySqlAdapter.php:61-62 | `explode(...)[0]` is the longest prefix without the separator, ended by the separator or the end of the text |
| PhpStrings.RTrim | src/adapter/OptimizedMySqlAdapter.php:79 | `rtrim` gives the longest prefix ending in a non-blank character; everything removed is blank |
| PhpStrings.AfterLast | src/command/migrate/Create.php:198 | `substr(strrchr(...), 1)` is the text after the last separator, or `""` when there is none |
| PhpStrings.AfterLastJoin | src/command/migrate/Create.php:198 | the text after the last separator of `a . sep . b` is `b` when `b` holds no separator |
| PhpStrings.Trim | src/command/seed/Run.php:52 | `trim` gives a contiguous piece of the text that neither starts nor ends with a blank, and everything cut off before and after it is blank |
| Strtr.LongestMatch | src/command/migrate/Create.php:159 | the pair chosen at a position is one whose key occurs there, and no longer key occurs there; none is chosen only when no key occurs |
| Strtr.ApplyKeyPrefix | src/command/migrate/Create.php:159 | where a key is the longest match at the front, `strtr` emits its value and continues after the key |
| Strtr.ApplyLiteralPrefix | src/command/migrate/Create.php:159 | text in which no key can start is copied and never rescanned |
| ConsoleOutput.TransformCode | src/adapter/OutputAdapter.php:169-198 | an unrecognised code is returned unchanged; a changed code was a recognised Symfony code and becomes that code's host value |
| ConsoleOutput.TransformRecognised | src/adapter/OutputAdapter.php:169-198 | with distinct Symfony codes, each recognised code maps to its own host code |
| ConsoleOutput.DecodeFormat | src/adapter/OutputAdapter.php:157-158 | the format is the mask's format bits, or `OUTPUT_NORMAL` when it has none |
| ConsoleOutput.DecodeVerbosity | src/adapter/OutputAdapter.php:162-163 | the verbosity is the mask's verbosity bits, or `VERBOSITY_NORMAL` when it has none |
| ConsoleOutput.SetVerbosity | src/adapter/OutputAdapter.php:62-67 | stores the level as given, passes the converted level to the host and leaves the other fields alone |
| ConsoleOutput.Write | src/adapter/OutputAdapter.php:38-42 | sets the host verbosity, then writes with the format converted once; afterwards `getVerbosity` is the decoded verbosity |
| ConsoleOutput.Writeln | src/adapter/OutputAdapter.php:50-55 | as written: the same calls as `write`, except that the format is converted twice |
| ConsoleOutput.WritelnCorrected | src/adapter/OutputAdapter.php:50-55 | `writeln` with the format converted once: the host gets the converted verbosity, then the line with the format converted once; `decorated` and `formatter` are unchanged |
| ConsoleOutput.SetDecorated | src/adapter/OutputAdapter.php:124-128 | forwards the flag to the host and stores it |
| ConsoleOutput.SetFormatter | src/adapter/OutputAdapter.php:140-143 | stores the formatter without telling the host |
| ConsoleOutput.GettersRoundTrip | src/adapter/OutputAdapter.php:62-153 | each getter returns what its setter stored (the unconverted verbosity level); setting one field keeps the others |
| ConsoleOutput.ZeroOptions | src/adapter/OutputAdapter.php:36-42 | a mask of 0 writes in the normal format at normal verbosity |
| ConsoleOutput.PublishedSymfonyDistinct | src/adapter/OutputAdapter.php:171-196 | Symfony's values are pairwise distinct and non-zero, so no switch case shadows another |
| ConsoleOutput.DecodeRoundTrip | src/adapter/OutputAdapter.php:155-167 | with Symfony's single-bit values, a mask of one format and one verbosity decodes back to exactly those two |
| ConsoleOutput.WriteRoundTrip | src/adapter/OutputAdapter.php:38-42 | `write` with such a mask sets the host to that verbosity's host code and writes in that format's host code |
| ConsoleOutput.WritelnCorrectedRoundTrip | src/adapter/OutputAdapter.php:50-55 | the corrected `writeln` does the same |
| ConsoleOutput.WritelnAgreesWhenCodesApart | src/adapter/OutputAdapter.php:52-53 | the second conversion makes no difference when no host code is also a Symfony code |
| ConsoleOutput.TransformTwice | src/adapter/OutputAdapter.php:169-198 | converting an already converted code again changes nothing when no host code is also a Symfony code |
| ConsoleOutput.PublishedCodes | src/adapter/OutputAdapter.php:52-53 | with the published constants, host raw equals Symfony normal and host plain equals Symfony raw, the overlap the double conversion trips on |
| ConsoleOutput.WritelnRawBecomesNormal | src/adapter/OutputAdapter.php:52-53 | with the published constants, raw output reaches the host as normal output |
| ConsoleOutput.WritelnPlainBecomesRaw | src/adapter/OutputAdapter.php:52-53 | with the published constants, plain output reaches the host as raw output |
| InputDefinition.Convert | src/adapter/InputDefinitionAdapter.php:29-34 | the host option keeps the name, shortcut, mode, description and default |
| InputDefinition.Partition | src/adapter/InputDefinitionAdapter.php:25-39 | every item lands in exactly one list; the option list has one entry per option item |
| InputDefinition.PartitionSizes | src/adapter/InputDefinitionAdapter.php:27-39 | the two lists' lengths add up to the definition's length |
| InputDefinition.PartitionReassembles | src/adapter/InputDefinitionAdapter.php:27-39 | interleaving the two lists by the original item kinds gives back the definition: nothing is lost, duplicated or reordered |
| InputDefinition.PartitionKeepsEveryItem | src/adapter/InputDefinitionAdapter.php:27-39 | every option appears converted in the option list, and every argument in the argument list |
| InputDefinition.ArgumentsOnly | src/adapter/InputDefinitionAdapter.php:36-38 | a definition without options becomes its own argument list |
| InputDefinition.SetDefinition | src/adapter/InputDefinitionAdapter.php:23-43 | the loop as written computes the partition |
| MigrationCommand.Select | src/Command.php:61-83 | with `deploy == 0` the field is copied; otherwise it is its first comma-separated segment |
| MigrationCommand.GetConfig | src/Command.php:91-95 | the setting when it is set and not null, else the default |
| MigrationCommand.DbConfig | src/Command.php:57-89 | the ten keys of the engine configuration and their values, including the `<prefix>migrations` fallback and `version_order = creation` |
| MigrationCommand.FirstSegmentUnchanged | src/Command.php:74-81 | a value is its own first comma segment if and only if it holds no comma |
| MigrationCommand.DeployIrrelevantWithoutCommas | src/Command.php:61-83 | for comma-free settings the `deploy` flag does not change the configuration |
| MigrationCommand.DriverFor | src/Command.php:34-36 | the optimised MySQL adapter serves exactly the name `mysql` |
| MigrationCommand.WrapperChain | src/Command.php:36-46 | the base adapter is wrapped by `timed`, and by `prefix` outside it exactly when a prefix or suffix is set |
| MigrationCommand.GetAdapter | src/Command.php:26-51 | a cached adapter is returned as it is; otherwise one is built from the configuration and cached |
| MigrationCommand.GetAdapterCaches | src/Command.php:28-30 | a second call returns the first call's adapter even if the configuration changed in between |
| MigrationCommand.DerivedConfigAlwaysPrefixed | src/Command.php:44-46 | an adapter built from the derived configuration always has the prefix wrapper |
| MigrationCommand.MySqlSelectsOptimized | src/Command.php:34-36 | a `mysql` connection (first segment, for distributed deployments) gets the optimised adapter |
| MigrationCommand.VerifyDirectory | src/Command.php:104-143 | passes exactly for an existing writable directory; "does not exist" is raised first, "not writable" only for an existing directory |
| SeedRun.Lookup | src/command/seed/Run.php:74-75 | finds a seeder exactly when the name is a key, and returns the seeder stored under it |
| SeedRun.ExecuteSeed | src/command/seed/Run.php:82-108 | the adapter is set first; begin follows exactly when the adapter has transactions; `run` is called exactly when it exists; commit closes the block exactly when the adapter has transactions and `run` did not throw; a throwing `run` ends the block with its exception, leaving the transaction begun |
| SeedRun.Selected | src/command/seed/Run.php:67-71 | the seeders run are exactly those whose name is a registry key |
| SeedRun.SelectedAppend | src/command/seed/Run.php:67-71 | selection of a registry split in two is the selection of each part, in order: a filter that keeps order and multiplicity |
| SeedRun.SelectedAllKeyed | src/command/seed/Run.php:67-71 | when every seeder's name is a key, every seeder is selected, once each, in registry order |
| SeedRun.SelfKeyedSelectsAll | src/command/seed/Run.php:67-71 | when each seeder is stored under its own name, `seed()` selects the whole registry in order |
| SeedRun.Execute | src/command/seed/Run.php:40-59 | no `--seed` runs every seeder; otherwise each trimmed name is run in turn |
| SeedRun.TrimAll | src/command/seed/Run.php:51-53 | each name is trimmed, in order |
| SeedRun.ParseExecutionInverse | src/command/seed/Run.php:82-108 | the trace of one seeder parses back to that seeder |
| SeedRun.ParseExecutions | src/command/seed/Run.php:82-108 | consecutive seeder traces, stopped by the first seeder that throws or else optionally ended by an unknown-name error, parse back to the seeders that started and the error |
| SeedRun.ThrowStopsRun | src/command/seed/Run.php:67-104 | when seeder k is the first to throw, the trace is the earlier seeders' traces and then its own, the seeders after it never start, the exception is the last event, and with transactions a begin is left without a commit |
| SeedRun.SeedAllRunsSelected | src/command/seed/Run.php:46-48 | without `--seed`, the selected seeders run once each, in registry order, up to the first that throws, and no name is reported unknown |
| SeedRun.SeedNamedKnown | src/command/seed/Run.php:73-75 | known names run their seeders in the order given, repeats included, until one throws |
| SeedRun.SeedNamedStopsAtUnknown | src/command/seed/Run.php:73-78 | the first unknown name raises its error after the seeders named before it have run, unless one of those threw first |
| SeedRun.NamedRunParses | src/command/seed/Run.php:49-54 | with all trimmed `--seed` names known, exactly their seeders run, in order, up to the first that throws, and no name is reported unknown |
| SeedRun.UnknownNameParses | src/command/seed/Run.php:49-78 | with an unknown trimmed name at position k, the earlier names' seeders run and, unless one of them threw, the run ends with that name's error |
| Scaffold.ShortName | src/command/migrate/Create.php:194-199 | with `true` and a truthy text after the last backslash, that text; otherwise the whole name; a result other than the whole name is a truthy, backslash-free tail of it |
| Scaffold.ShortNameOfQualified | src/command/migrate/Create.php:194-199 | for every namespace and every truthy backslash-free base, dropping the namespace gives the base and keeping it gives the whole name |
| Scaffold.MigratorNames | src/command/migrate/Create.php:194-199 | the base class name is `Migrator` without the namespace and `think\migration\Migrator` with it |
| Scaffold.ResolveSource | src/command/migrate/Create.php:91-137 | `--template` with `--class` is an error and the default conflict never is; otherwise, with the options in force (the stub and no class when neither is given): a template that is not a file is `TemplateMissing`, else a class that does not exist is `ClassMissing`, else one that is not a creation class is `NotCreationClass`, and resolution succeeds exactly when none of these applies; the source is the class, else the template, else the stub |
| Scaffold.MigrationCreate | src/command/migrate/Create.php:61-168 | a written migration calls the creation hook exactly when a class was given |
| Scaffold.MigrationDirectoryFirst | src/command/migrate/Create.php:61 | a missing or unwritable directory is reported before anything else |
| Scaffold.MigrationNameChecksInOrder | src/command/migrate/Create.php:68-89 | an invalid name is rejected before uniqueness is checked, and a duplicate before the file check |
| Scaffold.NoDefaultConflict | src/command/migrate/Create.php:92-96 | the template-and-class default conflict is never raised |
| Scaffold.MigrationOutcome | src/command/migrate/Create.php:139-168 | after the checks: source errors pass through; a failed write reports the directory; otherwise the substituted template is written and the hook gets the file, the class and `Migrator` |
| Scaffold.MigrationTargetPath | src/command/migrate/Create.php:83-89 | the file is the resolved directory, the separator and the engine's file name, and it did not exist |
| Scaffold.NamespaceDefinitionCleared | src/command/migrate/Create.php:151-159 | `$namespaceDefinition` is replaced whole by `""`, not read as `$namespace` followed by text |
| Scaffold.ClassNameFilledIn | src/command/migrate/Create.php:150-159 | `$className` becomes the class name argument |
| Scaffold.VersionFilledIn | src/command/migrate/Create.php:156-159 | `$version` becomes the version read from the file name, in decimal |
| Scaffold.SeedCreate | src/command/seed/Create.php:45-76 | a written seeder has no creation hook |
| Scaffold.SeedDirectoryFirst | src/command/seed/Create.php:45 | the seed directory is checked before the class name |
| Scaffold.SeedOutcome | src/command/seed/Create.php:49-76 | an invalid name is rejected; the file is `<dir><sep><name>.php`; an existing file is reported by its base name; a failed write reports the directory; otherwise the substituted stub is written |
| Scaffold.BasenameOfJoin | src/command/seed/Create.php:59 | the base name of the seed path is `<name>.php` when the name holds no separator |
| Scaffold.SeedHasNoVersionToken | src/command/seed/Create.php:65-71 | the seeder token map has no `$version` entry |
| Scaffold.SeedVersionLeftAlone | src/command/seed/Create.php:65-72 | so a `$version` in a seeder template is copied unchanged |
| Scaffold.UnknownPlaceholder | src/command/seed/Create.php:72 | a `$word` that no key continues is copied unchanged when every key is `$` and a word |

## Left out

- The `confirm` prompt and `mkdir` before the directory check. These are interactive I/O. The directory queries describe the file system as the check finds it.
- `realpath` returning `false`. The resolved path is a parameter function that always returns a string.
- `microtime`, the `%.4fs` timing text and every console message. These are a clock, floating point and wording. Only which error is raised is modelled.
- `getcwd` and the `created` line of the scaffolding commands. This is output text built from the process's working directory.
- `isQuiet`, `isVerbose`, `isVeryVerbose` and `isDebug` (src/adapter/OutputAdapter.php:84-117). They forward to the host output with no logic of their own.
- `AdapterFactory` internals: the adapter and wrapper classes, and the error for an unknown adapter name. An adapter is a name and its options; `hasOption` is `isset` on those options.
- `setInput` and `setOutput` on the wrapped adapter (src/Command.php:41-42). They hand over the I/O bridges and have no effect on the chain.
- `InputAdapter`. It is pure delegation to the host input.
- The reflection that reads an option's `mode`. `mode` is a plain field.
- Validation inside the host `Option` constructor, and in `setArguments` / `setOptions`. That code is not part of this model.
- Phinx's `Util` functions, `class_exists`, `is_subclass_of`, the creation class's template and `file_get_contents`. These are parameters with no behaviour assumed.
- The migration stub path (`getTemplate`, a `realpath` of a file beside the command). It is a parameter string.
- The second uniqueness check (src/command/migrate/Create.php:76-81). It repeats the first with the same arguments, so it can never fail after the first passed. It is modelled once.
- `$namespace` is always `null`. Only that case of the namespace tokens is modelled.
- `Columns.Make`: the dispatch of each option to its own Phinx setter is not modelled. Options stay as the array given.
- Array-valued `engine`, `collation` or `comment` options are outside the model. For `engine`, `sprintf` writes `Array`, as `ToText` does. For `collation` and `comment` the program errors, because `explode` (src/adapter/OptimizedMySqlAdapter.php:61) and the connection's `quote` (line 68) refuse an array; the model still renders `Array` there. Nothing is proved about these cases.
- PHP's 64-bit integers. Console codes are `bv64`, so `&` and `|` are the PHP operators. Other integers (version, column lengths) are unbounded.
- ConsoleOutput.WritelnRawBecomesNormal: uses Symfony's `OUTPUT_*`/`VERBOSITY_*` values (1, 2, 4, 16, 32, 64, 128, 256) and ThinkPHP's `Output` values (0, 1, 2, 0, 1, 2, 3, 4). Those constants are defined outside this repository; they appear here as `ConsoleOutput.SymfonyCodes` and `ConsoleOutput.HostCodes`.
- ConsoleOutput.DecodeRoundTrip: proved for Symfony's published values only, not for every layout of single-bit codes. The host values stay a parameter. `WriteRoundTrip` and `WritelnCorrectedRoundTrip` inherit this.
- ConsoleOutput.WritelnPlainBecomesRaw: rests on the same published constants.

## Findings

| source | as written | input that shows it | evidently intended | confidence | as-written member | corrected member |
|---|---|---|---|---|---|---|
| src/adapter/OutputAdapter.php:52-53 | `writeln` converts the format code with `transformCode` after `optionsToType` has already converted it. A host code that equals a Symfony code is converted again. | `writeln($m, OUTPUT_RAW)`: Symfony `OUTPUT_RAW` = 2 becomes host raw 1, and 1 is Symfony `OUTPUT_NORMAL`, which becomes host normal 0. Plain (4) similarly reaches the host as raw. | Convert once, as `write` does, so raw output stays raw. | medium (the constant values come from the two libraries); not executed | ConsoleOutput.Writeln, ConsoleOutput.WritelnRawBecomesNormal | ConsoleOutput.WritelnCorrected, ConsoleOutput.WritelnCorrectedRoundTrip |
