/**
 * Phinx's column types and the MySQL length limits the named column
 * constructors refer to. The values are those of Phinx's `MysqlAdapter`.
 */
module ColumnTypes {

  /** The `AdapterInterface::PHINX_TYPE_*` names, plus any other type text a caller passes to `make`. */
  datatype ColumnType =
    | BigInteger | Blob | Boolean | Char | Date | DateTime | Decimal | Enum | Float
    | Integer | Json | Jsonb | Text | String | Time | Timestamp | Uuid
    | Other(name: string)

  const IntTiny: int := 255
  const IntSmall: int := 65535
  const IntMedium: int := 16777215
  const TextMedium: int := 16777215
  const TextLong: int := 4294967295
}

/**
 * The column record (`think\migration\db\Column` over Phinx's
 * `Table\Column`) and its named constructors. The PHP setters mutate and
 * return the same object; here they return the updated record.
 */
module Columns {
  import opened Values
  import T = ColumnTypes

  /**
   * The fields of a column the model uses. `options` is the array handed to
   * `setOptions`; Phinx's dispatch of each option to its own setter is not
   * part of this model.
   */
  datatype Column = Column(
    name: string,
    kind: T.ColumnType,
    options: Options,
    nullable: bool,
    signed: bool,
    identity: bool,
    unique: bool)

  /** A column as `new static()` leaves it: Phinx's defaults (not null, signed, no identity) and `$unique = false`. */
  predicate IsPlain(c: Column) {
    !c.nullable && c.signed && !c.identity && !c.unique
  }

  /** `Column::make`: a fresh column with exactly the given name, type and options. */
  function Make(name: string, kind: T.ColumnType, options: Options := map[]): (c: Column)
    ensures c.name == name && c.kind == kind && c.options == options
    ensures IsPlain(c)
  {
    Column(name, kind, options, false, true, false, false)
  }

  /** `setNullable()` is `setNull(true)`. */
  function SetNullable(c: Column): (r: Column)
    ensures r.nullable
    ensures r == c.(nullable := r.nullable)
  {
    c.(nullable := true)
  }

  /** `setSigned($signed)`, with Phinx's cast of the argument to a boolean. */
  function SetSigned(c: Column, signed: bool): (r: Column)
    ensures r.signed == signed
    ensures r == c.(signed := r.signed)
  {
    c.(signed := signed)
  }

  /** `setUnsigned()` is `setSigned(false)`. */
  function SetUnsigned(c: Column): (r: Column)
    ensures !r.signed
    ensures r == c.(signed := r.signed)
  {
    SetSigned(c, false)
  }

  /** `setUnique()` marks the column unique and changes nothing else. */
  function SetUnique(c: Column): (r: Column)
    ensures r.unique
    ensures r == c.(unique := r.unique)
  {
    c.(unique := true)
  }

  function GetUnique(c: Column): bool {
    c.unique
  }

  /** `isUnique()` delegates to `getUnique()`. */
  function IsUnique(c: Column): bool {
    GetUnique(c)
  }

  function BigInteger(name: string): Column { Make(name, T.BigInteger) }
  function Binary(name: string): Column { Make(name, T.Blob) }
  function Boolean(name: string): Column { Make(name, T.Boolean) }
  function Char(name: string, length: int := 255): Column { Make(name, T.Char, map["length" := Int(length)]) }
  function Date(name: string): Column { Make(name, T.Date) }
  function DateTime(name: string): Column { Make(name, T.DateTime) }
  function Decimal(name: string, precision: int := 8, scale: int := 2): Column {
    Make(name, T.Decimal, map["precision" := Int(precision), "scale" := Int(scale)])
  }
  function Enum(name: string, values: seq<string>): Column { Make(name, T.Enum, map["values" := List(values)]) }
  function Float(name: string): Column { Make(name, T.Float) }
  function Integer(name: string): Column { Make(name, T.Integer) }
  function Json(name: string): Column { Make(name, T.Json) }
  function Jsonb(name: string): Column { Make(name, T.Jsonb) }
  function LongText(name: string): Column { Make(name, T.Text, map["length" := Int(T.TextLong)]) }
  function MediumInteger(name: string): Column { Make(name, T.Integer, map["length" := Int(T.IntMedium)]) }
  function MediumText(name: string): Column { Make(name, T.Text, map["length" := Int(T.TextMedium)]) }
  function SmallInteger(name: string): Column { Make(name, T.Integer, map["length" := Int(T.IntSmall)]) }
  function String(name: string, length: int := 255): Column { Make(name, T.String, map["length" := Int(length)]) }
  function Text(name: string): Column { Make(name, T.Text) }
  function Time(name: string): Column { Make(name, T.Time) }
  function TinyInteger(name: string): Column { Make(name, T.Integer, map["length" := Int(T.IntTiny)]) }
  function UnsignedInteger(name: string): Column { SetUnsigned(Integer(name)) }
  function Timestamp(name: string): Column { Make(name, T.Timestamp) }
  function Uuid(name: string): Column { Make(name, T.Uuid) }

  /** The setters change exactly one flag each; uniqueness reads back through both getters. */
  lemma SettersRoundTrip(c: Column)
    ensures IsUnique(SetUnique(c)) && GetUnique(SetUnique(c))
    ensures IsUnique(c) == GetUnique(c) == c.unique
    ensures SetUnsigned(c) == SetSigned(c, false)
    ensures SetNullable(c).name == c.name && SetNullable(c).options == c.options
    ensures SetUnique(SetUnique(c)) == SetUnique(c)
    ensures !IsUnique(Make(c.name, c.kind, c.options))
  {
  }

  /** Every named constructor yields a plain column with its own name; only `unsignedInteger` clears `signed`. */
  lemma NamedConstructorsArePlain(n: string, values: seq<string>)
    ensures IsPlain(BigInteger(n)) && BigInteger(n).name == n && BigInteger(n).kind == T.BigInteger
    ensures IsPlain(Binary(n)) && Binary(n).name == n && Binary(n).kind == T.Blob
    ensures IsPlain(Boolean(n)) && Boolean(n).name == n && Boolean(n).kind == T.Boolean
    ensures IsPlain(Char(n)) && Char(n).name == n
    ensures IsPlain(Date(n)) && Date(n).name == n && Date(n).kind == T.Date
    ensures IsPlain(DateTime(n)) && DateTime(n).name == n && DateTime(n).kind == T.DateTime
    ensures IsPlain(Decimal(n)) && Decimal(n).name == n
    ensures IsPlain(Enum(n, values)) && Enum(n, values).name == n && Enum(n, values).kind == T.Enum
    ensures IsPlain(Float(n)) && Float(n).name == n && Float(n).kind == T.Float
    ensures IsPlain(Integer(n)) && Integer(n).name == n
    ensures IsPlain(Json(n)) && Json(n).name == n && Json(n).kind == T.Json
    ensures IsPlain(Jsonb(n)) && Jsonb(n).name == n && Jsonb(n).kind == T.Jsonb
    ensures IsPlain(LongText(n)) && LongText(n).name == n
    ensures IsPlain(MediumInteger(n)) && MediumInteger(n).name == n
    ensures IsPlain(MediumText(n)) && MediumText(n).name == n
    ensures IsPlain(SmallInteger(n)) && SmallInteger(n).name == n
    ensures IsPlain(String(n)) && String(n).name == n
    ensures IsPlain(Text(n)) && Text(n).name == n
    ensures IsPlain(Time(n)) && Time(n).name == n && Time(n).kind == T.Time
    ensures IsPlain(TinyInteger(n)) && TinyInteger(n).name == n
    ensures IsPlain(Timestamp(n)) && Timestamp(n).name == n && Timestamp(n).kind == T.Timestamp
    ensures IsPlain(Uuid(n)) && Uuid(n).name == n && Uuid(n).kind == T.Uuid
    ensures UnsignedInteger(n) == Integer(n).(signed := false)
    ensures !UnsignedInteger(n).nullable && !UnsignedInteger(n).unique && !UnsignedInteger(n).identity
  {
  }

  /** `char` and `string` default to length 255; `decimal` to precision 8 and scale 2. */
  lemma DefaultSizes(n: string)
    ensures Char(n).options == map["length" := Int(255)] && Char(n).kind == T.Char
    ensures String(n).options == map["length" := Int(255)] && String(n).kind == T.String
    ensures Decimal(n).options == map["precision" := Int(8), "scale" := Int(2)] && Decimal(n).kind == T.Decimal
  {
  }

  /** The sized integer and text constructors use the generic type with a MySQL length limit. */
  lemma SizedVariants(n: string, values: seq<string>)
    ensures TinyInteger(n).kind == SmallInteger(n).kind == MediumInteger(n).kind == Integer(n).kind == T.Integer
    ensures TinyInteger(n).options["length"] == Int(T.IntTiny)
    ensures SmallInteger(n).options["length"] == Int(T.IntSmall)
    ensures MediumInteger(n).options["length"] == Int(T.IntMedium)
    ensures MediumText(n).kind == LongText(n).kind == Text(n).kind == T.Text
    ensures MediumText(n).options["length"] == Int(T.TextMedium)
    ensures LongText(n).options["length"] == Int(T.TextLong)
    ensures Integer(n).options == Text(n).options == map[]
    ensures Enum(n, values).options["values"] == List(values)
  {
  }
}
