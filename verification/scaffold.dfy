/**
 * The `make:migration` and `make:seeder` commands (`migrate\Create`,
 * `seed\Create`): the checks they make before writing a new class file, in
 * the order they make them, where the file goes, which template it is made
 * from and what the template's placeholders become. The file system, the
 * migration engine's class-name utilities and PHP's class queries are the
 * parameters in `Env`; the outcome is the file to write (a `Plan`) or the
 * error raised.
 */
module Scaffold {
  import opened Wrappers
  import opened PhpStrings
  import opened Values
  import Strtr
  import MigrationCommand

  /** Everything the commands ask of the outside world. */
  datatype Env = Env(
    dirs: MigrationCommand.DirProbe,
    isFile: string -> bool,
    realpath: string -> string,
    separator: char,
    isValidClassName: string -> bool,
    isUniqueMigrationName: (string, string) -> bool,
    classNameToFileName: string -> string,
    versionFromFileName: string -> int,
    classExists: string -> bool,
    implementsCreation: string -> bool,
    classTemplate: string -> string,
    readFile: string -> string,
    writeSucceeds: (string, string) -> bool,
    migrationStub: string,
    seedStub: string)

  /** The exception a command ends with. */
  datatype CreateError =
    | Directory(error: MigrationCommand.DirError)
    | InvalidClassName(name: string)
    | DuplicateClassName(name: string)
    | FileExists(path: string)
    | DefaultTemplateAndClass
    | TemplateAndClass
    | TemplateMissing(path: string)
    | ClassMissing(name: string)
    | NotCreationClass(name: string)
    | InvalidSeedName(name: string)
    | WriteFailed(directory: string)

  /** Where the template text comes from. */
  datatype Source = FromClass(className: string) | FromFile(path: string)

  /** `postMigrationCreation($filePath, $className, $baseClassName)` on the creation class. */
  datatype Hook = Hook(creationClass: string, filePath: string, className: string, baseClassName: string)

  /** A successful run: the file written, its contents and the hook called afterwards, if any. */
  datatype Plan = Plan(filePath: string, contents: string, hook: Option<Hook>)

  /** The migration base class the templates extend. */
  const MigratorClass := "think\\migration" + ['\\'] + "Migrator"

  /** The seeder base class. */
  const SeederClass := "think\\migration\\Seeder"

  /** The configured default creation class: always empty. */
  const DefaultCreationClass := ""

  /**
   * `getMigrationBaseClassName($dropNamespace)`: with `true`, the text after
   * the last backslash, falling back to the whole name when that text is
   * empty or `"0"`; with `false`, the whole name.
   */
  function ShortName(name: string, dropNamespace: bool): (r: string)
    ensures !dropNamespace ==> r == name
    ensures '\\' !in name ==> r == name
    ensures r == name || (TextTruthy(r) && '\\' !in r && exists i :: 0 <= i < |name| && name == name[..i] + ['\\'] + r)
    ensures dropNamespace && TextTruthy(AfterLast(name, '\\')) ==> r == AfterLast(name, '\\')
  {
    var tail := AfterLast(name, '\\');
    if dropNamespace && TextTruthy(tail) then tail else name
  }

  /**
   * For every namespaced class name: dropping the namespace gives the part
   * after the last backslash when that part is truthy, and keeping it gives
   * the whole name.
   */
  lemma ShortNameOfQualified(namespace: string, base: string)
    requires '\\' !in base && TextTruthy(base)
    ensures ShortName(namespace + ['\\'] + base, true) == base
    ensures ShortName(namespace + ['\\'] + base, false) == namespace + ['\\'] + base
  {
    AfterLastJoin(namespace, '\\', base);
  }

  /** `getMigrationBaseClassName(true)` is `Migrator`; with `false` it is the namespaced name. */
  lemma MigratorNames()
    ensures ShortName(MigratorClass, true) == "Migrator"
    ensures ShortName(MigratorClass, false) == MigratorClass
  {
    ShortNameOfQualified("think\\migration", "Migrator");
  }

  /** PHP truthiness of an option value that is a string or `null`. */
  predicate Given(o: Option<string>) {
    o.Some? && TextTruthy(o.value)
  }

  /** An option's string value, `""` for `null`. */
  function Text(o: Option<string>): string {
    match o
    case Some(s) => s
    case None => ""
  }

  /** The directory check, then `realpath`: the directory the file goes in. */
  function CheckDirectory(env: Env, kind: MigrationCommand.DirKind, path: string): Result<string, CreateError> {
    match MigrationCommand.VerifyDirectory(env.dirs, kind, path)
    case Fail(e) => Failure(Directory(e))
    case Pass => Success(env.realpath(path))
  }

  /**
   * Lines 61-89 of the migration command: the directory check, then the
   * class name's validity, then its uniqueness, then that the file is new.
   * On success: the resolved directory, the file name and the file path.
   */
  function CheckMigrationTarget(env: Env, path: string, className: string): Result<(string, string, string), CreateError> {
    var dir :- CheckDirectory(env, MigrationCommand.MigrationDir, path);
    if !env.isValidClassName(className) then Failure(InvalidClassName(className))
    else if !env.isUniqueMigrationName(className, dir) then Failure(DuplicateClassName(className))
    else
      var fileName := env.classNameToFileName(className);
      var filePath := dir + [env.separator] + fileName;
      if env.isFile(filePath) then Failure(FileExists(filePath))
      else Success((dir, fileName, filePath))
  }

  /**
   * Lines 91-137: the template and class options. Both at once is an error;
   * neither means the configured defaults; a named template must be a file;
   * a named class must exist and implement the creation interface. The
   * template source is the class if one is named, else the named template,
   * else the built-in stub.
   */
  function ResolveSource(env: Env, template: Option<string>, creationClass: Option<string>): (r: Result<Source, CreateError>)
    ensures r != Failure(DefaultTemplateAndClass)
    ensures r == Failure(TemplateAndClass) <==> Given(template) && Given(creationClass)
    ensures r.Failure? && r.error.TemplateMissing?
            <==> !(Given(template) && Given(creationClass)) && !TemplateFound(env, AltTemplate(env, template, creationClass))
    ensures r.Failure? && r.error.TemplateMissing? ==> r.error.path == AltTemplate(env, template, creationClass)
    ensures r.Failure? && r.error.ClassMissing?
            <==> var cls := ClassOption(template, creationClass);
                 && !(Given(template) && Given(creationClass)) && TemplateFound(env, AltTemplate(env, template, creationClass))
                 && TextTruthy(cls) && !env.classExists(cls)
    ensures r.Failure? && r.error.NotCreationClass?
            <==> var cls := ClassOption(template, creationClass);
                 && !(Given(template) && Given(creationClass)) && TemplateFound(env, AltTemplate(env, template, creationClass))
                 && TextTruthy(cls) && env.classExists(cls) && !env.implementsCreation(cls)
    ensures r.Failure? && (r.error.ClassMissing? || r.error.NotCreationClass?) ==> r.error.name == ClassOption(template, creationClass)
    ensures r.Success?
            <==> && !(Given(template) && Given(creationClass))
                 && TemplateFound(env, AltTemplate(env, template, creationClass))
                 && CreationClassUsable(env, ClassOption(template, creationClass))
    ensures r.Success? && Given(creationClass) ==> r.value == FromClass(creationClass.value)
    ensures r.Success? && !Given(creationClass) && Given(template) ==> r.value == FromFile(template.value)
    ensures r.Success? && !Given(creationClass) && !Given(template) ==> r.value == FromFile(env.migrationStub)
  {
    var defaultAlt := env.migrationStub;
    if TextTruthy(defaultAlt) && TextTruthy(DefaultCreationClass) then Failure(DefaultTemplateAndClass)
    else if Given(template) && Given(creationClass) then Failure(TemplateAndClass)
    else
      var neither := !Given(template) && !Given(creationClass);
      var alt := if neither then defaultAlt else Text(template);
      var cls := if neither then DefaultCreationClass else Text(creationClass);
      if TextTruthy(alt) && !env.isFile(alt) then Failure(TemplateMissing(alt))
      else if TextTruthy(cls) && !env.classExists(cls) then Failure(ClassMissing(cls))
      else if TextTruthy(cls) && !env.implementsCreation(cls) then Failure(NotCreationClass(cls))
      else if TextTruthy(cls) then Success(FromClass(cls))
      else Success(FromFile(if TextTruthy(alt) then alt else env.migrationStub))
  }

  /** Lines 106-109: the template option in force, the configured stub when neither option is given. */
  function AltTemplate(env: Env, template: Option<string>, creationClass: Option<string>): string {
    if !Given(template) && !Given(creationClass) then env.migrationStub else Text(template)
  }

  /** Lines 106-109: the class option in force, the configured (empty) default when neither option is given. */
  function ClassOption(template: Option<string>, creationClass: Option<string>): string {
    if !Given(template) && !Given(creationClass) then DefaultCreationClass else Text(creationClass)
  }

  /** Lines 112-117: a template, if one is in force, must be a file. */
  predicate TemplateFound(env: Env, alt: string) {
    !TextTruthy(alt) || env.isFile(alt)
  }

  /** Lines 120-137: a class, if one is in force, must exist and implement the creation interface. */
  predicate CreationClassUsable(env: Env, cls: string) {
    !TextTruthy(cls) || (env.classExists(cls) && env.implementsCreation(cls))
  }

  /** The placeholders of a migration template and their values (`$namespace` is `null`, which `strtr` writes as `""`). */
  function MigrationTokens(className: string, version: int): Strtr.Tokens {
    Placeholders(ShortName(MigratorClass, false), className, IntToDecimal(version), ShortName(MigratorClass, true))
  }

  /** The six placeholders of a migration template, in the source's order, with the given values. */
  function Placeholders(useClassName: string, className: string, version: string, baseClassName: string): Strtr.Tokens {
    [("$namespaceDefinition", ""),
     ("$namespace", ""),
     ("$useClassName", useClassName),
     ("$className", className),
     ("$version", version),
     ("$baseClassName", baseClassName)]
  }

  /** The placeholders of a seeder template: fixed base class, no `$version`. */
  function SeedTokens(className: string): Strtr.Tokens {
    SeedPlaceholders(SeederClass, className, "Seeder")
  }

  /** The five placeholders of a seeder template, in the source's order, with the given values. */
  function SeedPlaceholders(useClassName: string, className: string, baseClassName: string): Strtr.Tokens {
    [("$namespaceDefinition", ""),
     ("$namespace", ""),
     ("$useClassName", useClassName),
     ("$className", className),
     ("$baseClassName", baseClassName)]
  }

  /** The template text of a source. */
  function TemplateText(env: Env, source: Source): string {
    match source
    case FromClass(c) => env.classTemplate(c)
    case FromFile(p) => env.readFile(p)
  }

  /** `execute()` of `make:migration`. */
  function MigrationCreate(env: Env, path: string, className: string, template: Option<string>,
                           creationClass: Option<string>): (r: Result<Plan, CreateError>)
    ensures r.Success? ==> (r.value.hook.Some? <==> Given(creationClass))
  {
    var (dir, fileName, filePath) :- CheckMigrationTarget(env, path, className);
    var source :- ResolveSource(env, template, creationClass);
    var contents := Strtr.Apply(TemplateText(env, source), MigrationTokens(className, env.versionFromFileName(fileName)));
    if !env.writeSucceeds(filePath, contents) then Failure(WriteFailed(dir))
    else
      var hook := match source
        case FromClass(c) => Some(Hook(c, filePath, className, ShortName(MigratorClass, true)))
        case FromFile(_) => None;
      Success(Plan(filePath, contents, hook))
  }

  /** `basename()`: what follows the last separator. */
  function Basename(path: string, sep: char): string {
    if sep in path then AfterLast(path, sep) else path
  }

  /** `execute()` of `make:seeder`. */
  function SeedCreate(env: Env, path: string, className: string): (r: Result<Plan, CreateError>)
    ensures r.Success? ==> r.value.hook.None?
  {
    var dir :- CheckDirectory(env, MigrationCommand.SeedDir, path);
    if !env.isValidClassName(className) then Failure(InvalidSeedName(className))
    else
      var filePath := dir + [env.separator] + className + ".php";
      if env.isFile(filePath) then Failure(FileExists(Basename(filePath, env.separator)))
      else
        var contents := Strtr.Apply(env.readFile(env.seedStub), SeedTokens(className));
        if !env.writeSucceeds(filePath, contents) then Failure(WriteFailed(dir))
        else Success(Plan(filePath, contents, None))
  }

  /** The directory is checked before anything else, whatever the name and options. */
  lemma MigrationDirectoryFirst(env: Env, path: string, className: string, template: Option<string>,
                                creationClass: Option<string>)
    requires !env.dirs.isDir(path) || !env.dirs.isWritable(path)
    ensures MigrationCreate(env, path, className, template, creationClass)
              == Failure(Directory(if !env.dirs.isDir(path) then MigrationCommand.DirMissing(MigrationCommand.MigrationDir, path)
                                   else MigrationCommand.DirNotWritable(MigrationCommand.MigrationDir, path)))
  {
  }

  /**
   * An invalid name is reported before uniqueness is looked at, and a
   * duplicate before the file or the options are: the first failing check
   * decides, whatever the later ones would say.
   */
  lemma MigrationNameChecksInOrder(env: Env, path: string, className: string, template: Option<string>,
                                   creationClass: Option<string>)
    requires env.dirs.isDir(path) && env.dirs.isWritable(path)
    ensures !env.isValidClassName(className) ==>
              MigrationCreate(env, path, className, template, creationClass) == Failure(InvalidClassName(className))
    ensures env.isValidClassName(className) && !env.isUniqueMigrationName(className, env.realpath(path)) ==>
              MigrationCreate(env, path, className, template, creationClass) == Failure(DuplicateClassName(className))
    ensures var filePath := env.realpath(path) + [env.separator] + env.classNameToFileName(className);
            env.isValidClassName(className) && env.isUniqueMigrationName(className, env.realpath(path)) && env.isFile(filePath) ==>
              MigrationCreate(env, path, className, template, creationClass) == Failure(FileExists(filePath))
  {
  }

  /** The configured default template and default class never conflict: that error cannot be raised. */
  lemma NoDefaultConflict(env: Env, path: string, className: string, template: Option<string>,
                          creationClass: Option<string>)
    ensures MigrationCreate(env, path, className, template, creationClass) != Failure(DefaultTemplateAndClass)
  {
    var r := CheckMigrationTarget(env, path, className);
    if r.Success? {
      var s := ResolveSource(env, template, creationClass);
    }
  }

  /**
   * Once the target checks pass, the result is decided by the options: both
   * is an error, a missing template or class is an error, and otherwise the
   * file is written from the class, the named template or the stub, in that
   * order of preference, with the hook called exactly when a class was used.
   */
  lemma MigrationOutcome(env: Env, path: string, className: string, template: Option<string>,
                         creationClass: Option<string>)
    requires CheckMigrationTarget(env, path, className).Success?
    ensures var (dir, fileName, filePath) := CheckMigrationTarget(env, path, className).value;
            var r := MigrationCreate(env, path, className, template, creationClass);
            var source := ResolveSource(env, template, creationClass);
            && (source.Failure? ==> r == Failure(source.error))
            && (source.Success? ==>
                  var contents := Strtr.Apply(TemplateText(env, source.value),
                                              MigrationTokens(className, env.versionFromFileName(fileName)));
                  && (!env.writeSucceeds(filePath, contents) ==> r == Failure(WriteFailed(dir)))
                  && (env.writeSucceeds(filePath, contents) ==>
                        && r.Success? && r.value.filePath == filePath && r.value.contents == contents
                        && (r.value.hook.Some? <==> source.value.FromClass?)
                        && (r.value.hook.Some? ==>
                              r.value.hook.value == Hook(source.value.className, filePath, className, "Migrator"))))
  {
    MigratorNames();
  }

  /** The file goes into the resolved directory under the name the engine maps the class name to. */
  lemma MigrationTargetPath(env: Env, path: string, className: string)
    requires CheckMigrationTarget(env, path, className).Success?
    ensures var (dir, fileName, filePath) := CheckMigrationTarget(env, path, className).value;
            && dir == env.realpath(path)
            && fileName == env.classNameToFileName(className)
            && filePath == dir + [env.separator] + fileName
            && !env.isFile(filePath)
            && env.isValidClassName(className) && env.isUniqueMigrationName(className, dir)
  {
  }

  /** A key found at the front of a text agrees with it in its second character. */
  lemma SecondChar(key: string, s: string)
    requires Strtr.MatchesAt(key, s) && |key| >= 2
    ensures key[1] == s[1]
  {
    assert s[..|key|][1] == s[1];
  }

  /** `$namespaceDefinition` is replaced as a whole (by `""`), not as `$namespace` followed by text. */
  lemma NamespaceDefinitionCleared(className: string, version: int, rest: string)
    ensures Strtr.Apply("$namespaceDefinition" + rest, MigrationTokens(className, version))
              == Strtr.Apply(rest, MigrationTokens(className, version))
  {
    NamespaceDefinitionPlaceholder(ShortName(MigratorClass, false), className, IntToDecimal(version),
                                   ShortName(MigratorClass, true), rest);
  }

  lemma NamespaceDefinitionPlaceholder(u: string, className: string, v: string, b: string, rest: string)
    ensures Strtr.Apply("$namespaceDefinition" + rest, Placeholders(u, className, v, b))
              == Strtr.Apply(rest, Placeholders(u, className, v, b))
  {
    var tokens := Placeholders(u, className, v, b);
    OnlyKeyAt(tokens, "$namespaceDefinition", "", rest);
    Strtr.ApplyKeyPrefix("$namespaceDefinition", "", rest, tokens);
  }

  /** `$className` becomes the class name given on the command line. */
  lemma ClassNameFilledIn(className: string, version: int, rest: string)
    ensures Strtr.Apply("$className" + rest, MigrationTokens(className, version))
              == className + Strtr.Apply(rest, MigrationTokens(className, version))
  {
    ClassNamePlaceholder(ShortName(MigratorClass, false), className, IntToDecimal(version),
                         ShortName(MigratorClass, true), rest);
  }

  lemma ClassNamePlaceholder(u: string, className: string, v: string, b: string, rest: string)
    ensures Strtr.Apply("$className" + rest, Placeholders(u, className, v, b))
              == className + Strtr.Apply(rest, Placeholders(u, className, v, b))
  {
    var tokens := Placeholders(u, className, v, b);
    OnlyKeyAt(tokens, "$className", className, rest);
    Strtr.ApplyKeyPrefix("$className", className, rest, tokens);
  }

  /** When every other key sharing its second character is shorter, `key` is the longest key found at the front of `key + rest`. */
  lemma OnlyKeyAt(tokens: Strtr.Tokens, key: string, value: string, rest: string)
    requires |key| >= 2
    requires forall t :: t in tokens && |t.0| >= 2 && t.0[1] == key[1] ==> |t.0| < |key| || t == (key, value)
    ensures forall t :: t in tokens && Strtr.MatchesAt(t.0, key + rest) ==> |t.0| < |key| || t == (key, value)
  {
    forall t | t in tokens && Strtr.MatchesAt(t.0, key + rest) && |t.0| >= 2
      ensures |t.0| < |key| || t == (key, value)
    {
      SecondChar(t.0, key + rest);
    }
  }

  /** `$version` becomes the decimal version the engine reads from the file name. */
  lemma VersionFilledIn(className: string, version: int, rest: string)
    ensures Strtr.Apply("$version" + rest, MigrationTokens(className, version))
              == IntToDecimal(version) + Strtr.Apply(rest, MigrationTokens(className, version))
  {
    VersionPlaceholder(ShortName(MigratorClass, false), className, IntToDecimal(version),
                       ShortName(MigratorClass, true), rest);
  }

  lemma VersionPlaceholder(u: string, className: string, v: string, b: string, rest: string)
    ensures Strtr.Apply("$version" + rest, Placeholders(u, className, v, b))
              == v + Strtr.Apply(rest, Placeholders(u, className, v, b))
  {
    var tokens := Placeholders(u, className, v, b);
    OnlyKeyAt(tokens, "$version", v, rest);
    Strtr.ApplyKeyPrefix("$version", v, rest, tokens);
  }

  /** The seeder's directory is checked before its class name. */
  lemma SeedDirectoryFirst(env: Env, path: string, className: string)
    requires !env.dirs.isDir(path) || !env.dirs.isWritable(path)
    ensures SeedCreate(env, path, className)
              == Failure(Directory(if !env.dirs.isDir(path) then MigrationCommand.DirMissing(MigrationCommand.SeedDir, path)
                                   else MigrationCommand.DirNotWritable(MigrationCommand.SeedDir, path)))
  {
  }

  /**
   * After the directory check: an invalid name is an error; the file is
   * `<dir><separator><name>.php`; an existing file there is reported by its
   * base name, which is `<name>.php` when the name holds no separator; a
   * failed write reports the directory.
   */
  lemma SeedOutcome(env: Env, path: string, className: string)
    requires env.dirs.isDir(path) && env.dirs.isWritable(path)
    ensures var dir := env.realpath(path);
            var filePath := dir + [env.separator] + className + ".php";
            var contents := Strtr.Apply(env.readFile(env.seedStub), SeedTokens(className));
            var r := SeedCreate(env, path, className);
            && (!env.isValidClassName(className) ==> r == Failure(InvalidSeedName(className)))
            && (env.isValidClassName(className) && env.isFile(filePath) && env.separator !in className + ".php" ==>
                  r == Failure(FileExists(className + ".php")))
            && (env.isValidClassName(className) && !env.isFile(filePath) && !env.writeSucceeds(filePath, contents) ==>
                  r == Failure(WriteFailed(dir)))
            && (env.isValidClassName(className) && !env.isFile(filePath) && env.writeSucceeds(filePath, contents) ==>
                  r == Success(Plan(filePath, contents, None)))
  {
    var dir := env.realpath(path);
    var filePath := dir + [env.separator] + className + ".php";
    if env.separator !in className + ".php" {
      BasenameOfJoin(dir, className + ".php", env.separator);
      assert filePath == dir + [env.separator] + (className + ".php");
    }
  }

  /** The base name of `dir + sep + name` is `name` when `name` holds no separator. */
  lemma BasenameOfJoin(dir: string, name: string, sep: char)
    requires sep !in name
    ensures Basename(dir + [sep] + name, sep) == name
  {
    assert (dir + [sep] + name)[|dir|] == sep;
    AfterLastJoin(dir, sep, name);
  }

  /** A seeder's token list has no `$version`. */
  lemma SeedHasNoVersionToken(className: string)
    ensures Strtr.Lookup(SeedTokens(className), "$version").None?
  {
    var tokens := SeedTokens(className);
    forall t | t in tokens
      ensures t.0 != "$version"
    {
      assert t.0[1] != 'v';
    }
  }

  /** So a `$version` placeholder in a seeder template is left as it is. */
  lemma SeedVersionLeftAlone(className: string, rest: string)
    ensures Strtr.Apply("$version" + rest, SeedTokens(className)) == "$version" + Strtr.Apply(rest, SeedTokens(className))
  {
    SeedVersionPlaceholder(SeederClass, className, "Seeder", rest);
  }

  lemma SeedVersionPlaceholder(u: string, className: string, b: string, rest: string)
    ensures Strtr.Apply("$version" + rest, SeedPlaceholders(u, className, b))
              == "$version" + Strtr.Apply(rest, SeedPlaceholders(u, className, b))
  {
    SeedKeys(u, className, b);
    UnknownPlaceholder(SeedPlaceholders(u, className, b), "$version", rest);
  }

  /** Every seeder key is a `$` and a word, none of which starts with `v`. */
  lemma SeedKeys(u: string, className: string, b: string)
    ensures forall t :: t in SeedPlaceholders(u, className, b) ==> |t.0| >= 2 && t.0[0] == '$' && t.0[1] != 'v'
  {
  }

  /**
   * A `$` followed by a word that no key continues with is copied as it is,
   * when every key is a `$` and at least one more character.
   */
  lemma UnknownPlaceholder(tokens: Strtr.Tokens, placeholder: string, rest: string)
    requires |placeholder| >= 2 && placeholder[0] == '$' && '$' !in placeholder[1..]
    requires forall t :: t in tokens ==> |t.0| >= 2 && t.0[0] == '$' && t.0[1] != placeholder[1]
    ensures Strtr.Apply(placeholder + rest, tokens) == placeholder + Strtr.Apply(rest, tokens)
  {
    var s := placeholder + rest;
    var word := placeholder[1..];
    assert s[1] == placeholder[1];
    NoKeyAt(tokens, s);
    assert s[1..] == word + rest;
    Strtr.ApplyLiteralPrefix(word, rest, tokens);
    assert placeholder == ['$'] + word;
  }

  /** No key is found where no key agrees with the text in its second character. */
  lemma NoKeyAt(tokens: Strtr.Tokens, s: string)
    requires |s| >= 2
    requires forall t :: t in tokens ==> |t.0| >= 2 && t.0[1] != s[1]
    ensures Strtr.LongestMatch(s, tokens).None?
  {
    forall t | t in tokens
      ensures !Strtr.MatchesAt(t.0, s)
    {
      if |t.0| <= |s| {
        assert s[..|t.0|][1] == s[1];
      }
    }
  }
}
