/**
 * `ColumnTypeToType`: from a parsed MySQL column definition to the SQL
 * engine's column type, or an error.  The type name is matched
 * case-insensitively; lengths and scales arrive as the decimal text the
 * parser kept.  The engine's type constructors are represented by the tags
 * they are given (base type, length, collation), and the collation lookup
 * by a table of the known (charset, collate) pairs.
 */
module ColumnTypes {
  import opened Wrappers
  import opened GoStrings

  // ---------------------------------------------------------------------
  // Inputs

  /** A parsed column type: name as written, UNSIGNED flag, `(length, scale)` text, charset, collation, ENUM/SET values. */
  datatype ColumnTypeDef = ColumnTypeDef(
    typeName: string,
    unsigned: bool,
    length: Option<string>,
    scale: Option<string>,
    charset: string,
    collate: string,
    enumValues: seq<string>)

  type PositiveNat = n: nat | n > 0 witness 1

  /** A collation, with its character set's maximum bytes per character. */
  datatype Collation = Collation(name: string, maxLength: PositiveNat)

  const Utf8mb3GeneralCi := Collation("utf8mb3_general_ci", 3)
  const BinaryCollation := Collation("binary", 1)

  /** The collations the engine knows, by (charset, collate). */
  type Collations = map<(string, string), Collation>

  // ---------------------------------------------------------------------
  // Outputs

  /** The base types of string-like columns. */
  datatype StringBase = TextBase | CharBase | VarCharBase | BinaryBase | VarBinaryBase

  datatype SqlType =
    | Int8 | Uint8 | Int16 | Uint16 | Int24 | Uint24 | Int32 | Uint32 | Int64 | Uint64
    | Float32 | Float64
    | Decimal(precision: nat, scale: nat)
    | Bit(bits: nat)
    | TinyBlob | Blob | MediumBlob | LongBlob
    /** A BLOB with an explicit length. */
    | SizedBlob(length: int)
    | StringType(base: StringBase, length: int, collation: Collation)
    | Year | Date | Time | Timestamp | Datetime
    | EnumType(values: seq<string>, collation: Collation)
    | SetType(values: seq<string>, collation: Collation)
    | Json

  datatype TypeError =
    /** `strconv.ParseInt` refused the text: not a decimal number, or out of range. */
    | BadNumber(text: string)
    /** The collation lookup refused the charset/collate pair. */
    | UnknownCollation(charset: string, collate: string)
    /** An error the function itself formats. */
    | Message(text: string)

  // ---------------------------------------------------------------------
  // Size constants

  const CharBinaryMax := 255
  const VarcharVarbinaryMax := 65535
  const TinyTextBlobMax := CharBinaryMax
  const TextBlobMax := VarcharVarbinaryMax
  const MediumTextBlobMax := 16777215
  const LongTextBlobMax := 4294967295

  // ---------------------------------------------------------------------
  // The switch arms

  /** The arms of the type switch that build a type or refuse with an arm-specific error. */
  datatype Arm =
    | ArmInt8 | ArmUint8 | ArmTinyint | ArmInt16 | ArmUint16 | ArmSmallint
    | ArmInt24 | ArmUint24 | ArmMediumint | ArmInt32 | ArmUint32 | ArmInt
    | ArmInt64 | ArmUint64 | ArmBigint | ArmFloat | ArmDouble | ArmDecimal | ArmBit
    | ArmTinyblob | ArmBlob | ArmMediumblob | ArmLongblob
    | ArmTinytext | ArmText | ArmMediumtext | ArmLongtext
    | ArmChar | ArmNchar | ArmVarchar | ArmNvarchar | ArmBinary | ArmVarbinary
    | ArmYear | ArmDate | ArmTime | ArmTimestamp | ArmDatetime
    | ArmEnum | ArmSet | ArmJson

  /**
   * What the switch does with a lowercased name: run an arm, fall through
   * the geometry cases to "not yet implemented", or take the default.
   */
  datatype Selected = RunArm(arm: Arm) | NotImplemented | Default

  /** The geometry family: names the switch knows but does not implement. */
  const GeometryNames: set<string> := {"geometry", "geometrycollection", "linestring", "multilinestring",
                                       "point", "multipoint", "polygon", "multipolygon"}

  /** The implemented cases of the type switch in source order: the lowercased names each accepts, and its arm. */
  const Cases: seq<(seq<string>, Arm)> := [
    (["int8", "boolean", "bool"], ArmInt8), (["uint8"], ArmUint8), (["tinyint"], ArmTinyint),
    (["int16"], ArmInt16), (["uint16"], ArmUint16), (["smallint"], ArmSmallint),
    (["int24"], ArmInt24), (["uint24"], ArmUint24), (["mediumint"], ArmMediumint),
    (["int32"], ArmInt32), (["uint32"], ArmUint32), (["int", "integer"], ArmInt),
    (["int64"], ArmInt64), (["uint64"], ArmUint64), (["bigint"], ArmBigint),
    (["float", "float32"], ArmFloat), (["double", "real", "double precision", "float64"], ArmDouble),
    (["decimal", "fixed", "dec", "numeric"], ArmDecimal), (["bit"], ArmBit),
    (["tinyblob"], ArmTinyblob), (["blob"], ArmBlob), (["mediumblob"], ArmMediumblob), (["longblob"], ArmLongblob),
    (["tinytext"], ArmTinytext), (["text"], ArmText), (["mediumtext", "long", "long varchar"], ArmMediumtext),
    (["longtext"], ArmLongtext), (["char", "character"], ArmChar),
    (["nchar", "national char", "national character"], ArmNchar),
    (["varchar", "character varying"], ArmVarchar),
    (["nvarchar", "national varchar", "national character varying"], ArmNvarchar),
    (["binary"], ArmBinary), (["varbinary"], ArmVarbinary),
    (["year"], ArmYear), (["date"], ArmDate), (["time"], ArmTime), (["timestamp"], ArmTimestamp),
    (["datetime"], ArmDatetime), (["enum"], ArmEnum), (["set"], ArmSet), (["json"], ArmJson)
  ]

  /** The first case that accepts the name, as a switch picks it; none if no case does. */
  function CaseFor(cases: seq<(seq<string>, Arm)>, lower: string): Option<Arm>
    decreases |cases|
  {
    if cases == [] then None
    else if lower in cases[0].0 then Some(cases[0].1)
    else CaseFor(cases[1..], lower)
  }

  /**
   * The switch on a lowercased name.  (Go refuses duplicate constant cases,
   * so no name is listed twice and testing the geometry names first picks
   * the same case as testing them last.)
   */
  function SelectCase(lower: string): Selected {
    if lower in GeometryNames then NotImplemented
    else match CaseFor(Cases, lower)
      case Some(arm) => RunArm(arm)
      case None => Default
  }

  // ---------------------------------------------------------------------
  // Pieces of the arms

  /** Go's `uint8(x)`: keep the low eight bits. */
  function Uint8Of(x: int): (r: nat)
    ensures r < 256 && (r - x) % 256 == 0
    ensures 0 <= x < 256 ==> r == x
  {
    x % 256
  }

  /** `strconv.ParseInt(text, 10, bits)`, with the text carried into the error. */
  function ParseLength(text: string, bits: nat): Result<int, TypeError>
    requires 1 <= bits <= 64
  {
    match ParseInt(text, bits)
    case Some(v) => Success(v)
    case None => Failure(BadNumber(text))
  }

  /** An optional length: parsed when present, `default` when absent. */
  function LengthOr(length: Option<string>, bits: nat, default: int): Result<int, TypeError>
    requires 1 <= bits <= 64
  {
    if length.None? then Success(default) else ParseLength(length.value, bits)
  }

  /** `sql.ParseCollation(&ct.Charset, &ct.Collate, false)`. */
  function ParseCollation(collations: Collations, ct: ColumnTypeDef): Result<Collation, TypeError>
  {
    if (ct.charset, ct.collate) in collations then Success(collations[(ct.charset, ct.collate)])
    else Failure(UnknownCollation(ct.charset, ct.collate))
  }

  /** A text type whose length is the byte budget divided by the collation's bytes per character. */
  function SizedText(collations: Collations, ct: ColumnTypeDef, budget: nat): Result<SqlType, TypeError> {
    var collation :- ParseCollation(collations, ct);
    Success(StringType(TextBase, budget / collation.maxLength, collation))
  }

  // ---------------------------------------------------------------------
  // ColumnTypeToType

  function ColumnTypeToType(collations: Collations, ct: ColumnTypeDef): Result<SqlType, TypeError> {
    Outcome(SelectCase(ToLower(ct.typeName)), collations, ct)
  }

  /** What the selected case produces; the refusals quote the name as written. */
  function Outcome(sel: Selected, collations: Collations, ct: ColumnTypeDef): Result<SqlType, TypeError> {
    match sel
    case RunArm(arm) => ArmType(arm, collations, ct)
    case NotImplemented => Failure(Message("type not yet implemented: " + ct.typeName))
    case Default => Failure(Message("unknown type: " + ct.typeName))
  }

  /** The body of the arm the name selected. */
  function ArmType(arm: Arm, collations: Collations, ct: ColumnTypeDef): Result<SqlType, TypeError> {
    match arm
    case ArmInt8 => Success(Int8)
    case ArmUint8 => Success(Uint8)
    case ArmTinyint => Success(if ct.unsigned then Uint8 else Int8)
    case ArmInt16 => Success(Int16)
    case ArmUint16 => Success(Uint16)
    case ArmSmallint => Success(if ct.unsigned then Uint16 else Int16)
    case ArmInt24 => Success(Int24)
    case ArmUint24 => Success(Uint24)
    case ArmMediumint => Success(if ct.unsigned then Uint24 else Int24)
    case ArmInt32 => Success(Int32)
    case ArmUint32 => Success(Uint32)
    case ArmInt => Success(if ct.unsigned then Uint32 else Int32)
    case ArmInt64 => Success(Int64)
    case ArmUint64 => Success(Uint64)
    case ArmBigint => Success(if ct.unsigned then Uint64 else Int64)
    case ArmFloat => Success(Float32)
    case ArmDouble => Success(Float64)
    case ArmDecimal =>
      var precision :- LengthOr(ct.length, 8, 0);
      var scale :- LengthOr(ct.scale, 8, 0);
      Success(Decimal(Uint8Of(precision), Uint8Of(scale)))
    case ArmBit =>
      var length :- LengthOr(ct.length, 8, 1);
      Success(Bit(Uint8Of(length)))
    case ArmTinyblob => Success(TinyBlob)
    case ArmBlob =>
      if ct.length.None? then Success(Blob)
      else
        var length :- ParseLength(ct.length.value, 64);
        Success(SizedBlob(length))
    case ArmMediumblob => Success(MediumBlob)
    case ArmLongblob => Success(LongBlob)
    case ArmTinytext => SizedText(collations, ct, TinyTextBlobMax)
    case ArmText =>
      var collation :- ParseCollation(collations, ct);
      if ct.length.None? then Success(StringType(TextBase, TextBlobMax / collation.maxLength, collation))
      else
        var length :- ParseLength(ct.length.value, 64);
        Success(StringType(TextBase, length, collation))
    case ArmMediumtext => SizedText(collations, ct, MediumTextBlobMax)
    case ArmLongtext => SizedText(collations, ct, LongTextBlobMax)
    case ArmChar =>
      var collation :- ParseCollation(collations, ct);
      var length :- LengthOr(ct.length, 64, 1);
      Success(StringType(CharBase, length, collation))
    case ArmNchar =>
      var length :- LengthOr(ct.length, 64, 1);
      Success(StringType(CharBase, length, Utf8mb3GeneralCi))
    case ArmVarchar =>
      var collation :- ParseCollation(collations, ct);
      if ct.length.None? then Failure(Message("VARCHAR requires a length"))
      else
        var length :- ParseLength(ct.length.value, 64);
        Success(StringType(VarCharBase, length, collation))
    case ArmNvarchar =>
      if ct.length.None? then Failure(Message("VARCHAR requires a length"))
      else
        var length :- ParseLength(ct.length.value, 64);
        Success(StringType(VarCharBase, length, Utf8mb3GeneralCi))
    case ArmBinary =>
      var length :- LengthOr(ct.length, 64, 1);
      Success(StringType(BinaryBase, length, BinaryCollation))
    case ArmVarbinary =>
      if ct.length.None? then Failure(Message("VARBINARY requires a length"))
      else
        var length :- ParseLength(ct.length.value, 64);
        Success(StringType(VarBinaryBase, length, BinaryCollation))
    case ArmYear => Success(Year)
    case ArmDate => Success(Date)
    case ArmTime => Success(Time)
    case ArmTimestamp => Success(Timestamp)
    case ArmDatetime => Success(Datetime)
    case ArmEnum =>
      var collation :- ParseCollation(collations, ct);
      Success(EnumType(ct.enumValues, collation))
    case ArmSet =>
      var collation :- ParseCollation(collations, ct);
      Success(SetType(ct.enumValues, collation))
    case ArmJson => Success(Json)
  }

  // ---------------------------------------------------------------------
  // Properties

  /** The switch runs the first case that names the value, and the default when none does. */
  lemma {:induction false} CaseForFirst(cases: seq<(seq<string>, Arm)>, lower: string)
    ensures CaseFor(cases, lower).None? <==> forall i :: 0 <= i < |cases| ==> lower !in cases[i].0
    ensures CaseFor(cases, lower).Some? ==>
      exists i :: 0 <= i < |cases| && lower in cases[i].0 && cases[i].1 == CaseFor(cases, lower).value &&
        forall j :: 0 <= j < i ==> lower !in cases[j].0
    decreases |cases|
  {
    if cases != [] && lower !in cases[0].0 {
      var rest := cases[1..];
      CaseForFirst(rest, lower);
      assert forall i :: 0 <= i < |rest| ==> rest[i] == cases[i + 1];
      if CaseFor(rest, lower).Some? {
        var i :| 0 <= i < |rest| && lower in rest[i].0 && rest[i].1 == CaseFor(rest, lower).value &&
          forall j :: 0 <= j < i ==> lower !in rest[j].0;
        assert lower in cases[i + 1].0;
      }
    }
  }

  /** The switch runs case `k` for a name that case `k` lists and no earlier case does. */
  lemma {:induction false} CaseForAt(cases: seq<(seq<string>, Arm)>, lower: string, k: nat)
    requires k < |cases| && lower in cases[k].0
    requires forall j :: 0 <= j < k ==> lower !in cases[j].0
    ensures CaseFor(cases, lower) == Some(cases[k].1)
    decreases k
  {
    if k > 0 {
      var rest := cases[1..];
      assert forall j :: 0 <= j < k - 1 ==> rest[j] == cases[j + 1];
      CaseForAt(rest, lower, k - 1);
    }
  }

  /** The only errors an arm formats itself are the two missing-length messages. */
  lemma ArmMessages(arm: Arm, collations: Collations, ct: ColumnTypeDef)
    ensures var r := ArmType(arm, collations, ct);
      r.Failure? && r.error.Message? ==> r.error.text in {"VARCHAR requires a length", "VARBINARY requires a length"}
  {
  }

  /**
   * The two refusals by name: a geometry-family name is "not yet
   * implemented", a name no case lists is "unknown", and both quote the name
   * as written.  Nothing else produces either message.
   */
  lemma UnsupportedNames(collations: Collations, ct: ColumnTypeDef)
    ensures ToLower(ct.typeName) in GeometryNames <==>
      ColumnTypeToType(collations, ct) == Failure(Message("type not yet implemented: " + ct.typeName))
    ensures (ToLower(ct.typeName) !in GeometryNames && forall i :: 0 <= i < |Cases| ==> ToLower(ct.typeName) !in Cases[i].0) <==>
      ColumnTypeToType(collations, ct) == Failure(Message("unknown type: " + ct.typeName))
  {
    var lower := ToLower(ct.typeName);
    CaseForFirst(Cases, lower);
    MessagesDiffer(ct.typeName);
    match SelectCase(lower)
    case RunArm(arm) =>
      ArmMessages(arm, collations, ct);
      NotAMissingLength("type not yet implemented: ", ct.typeName);
      NotAMissingLength("unknown type: ", ct.typeName);
    case _ =>
  }

  lemma NotAMissingLength(prefix: string, name: string)
    requires |prefix| > 0 && prefix[0] in "tu"
    ensures prefix + name !in {"VARCHAR requires a length", "VARBINARY requires a length"}
  {
    assert (prefix + name)[0] == prefix[0];
  }

  lemma MessagesDiffer(name: string)
    ensures "unknown type: " + name != "type not yet implemented: " + name
  {
    assert ("unknown type: " + name)[0] == 'u';
    assert ("type not yet implemented: " + name)[0] == 't';
  }

  /**
   * Type names are matched without regard to case: two spellings that
   * lowercase alike select the same case, and an implemented case gives the
   * same type or the same error for both.
   */
  lemma CaseInsensitive(collations: Collations, ct: ColumnTypeDef, spelling: string)
    requires ToLower(spelling) == ToLower(ct.typeName)
    ensures var other := ColumnTypeToType(collations, ct.(typeName := spelling));
      var mine := ColumnTypeToType(collations, ct);
      && (other.Success? <==> mine.Success?)
      && (SelectCase(ToLower(ct.typeName)).RunArm? ==> other == mine)
  {
    var sel := SelectCase(ToLower(ct.typeName));
    assert SelectCase(ToLower(spelling)) == sel;
    if sel.RunArm? {
      ArmIgnoresName(sel.arm, collations, ct, spelling);
    }
  }

  /** An arm reads everything in the definition but the name. */
  lemma ArmIgnoresName(arm: Arm, collations: Collations, ct: ColumnTypeDef, spelling: string)
    ensures ArmType(arm, collations, ct.(typeName := spelling)) == ArmType(arm, collations, ct)
  {
  }

  /** The name decides the arm; the arm alone decides the result. */
  lemma ArmDecides(collations: Collations, ct: ColumnTypeDef, arm: Arm)
    requires SelectCase(ToLower(ct.typeName)) == RunArm(arm)
    ensures ColumnTypeToType(collations, ct) == ArmType(arm, collations, ct)
  {
  }

  /** The integer width a sized-integer arm stands for, signed and unsigned. */
  function IntegerPair(arm: Arm): (r: Option<(SqlType, SqlType)>)
    ensures r.Some? <==> arm in {ArmTinyint, ArmSmallint, ArmMediumint, ArmInt, ArmBigint}
  {
    match arm
    case ArmTinyint => Some((Int8, Uint8))
    case ArmSmallint => Some((Int16, Uint16))
    case ArmMediumint => Some((Int24, Uint24))
    case ArmInt => Some((Int32, Uint32))
    case ArmBigint => Some((Int64, Uint64))
    case _ => None
  }

  /**
   * The MySQL integer names follow the UNSIGNED flag: unsigned exactly
   * when the flag is set, and always of their own width.
   */
  lemma IntegerNamesFollowUnsigned(arm: Arm, collations: Collations, ct: ColumnTypeDef)
    requires IntegerPair(arm).Some?
    ensures ArmType(arm, collations, ct) == Success(if ct.unsigned then IntegerPair(arm).value.1 else IntegerPair(arm).value.0)
  {
  }

  /** The explicit-width names, and `bool`/`boolean` with them, ignore the UNSIGNED flag. */
  lemma ExplicitWidthIgnoresUnsigned(arm: Arm, collations: Collations, ct: ColumnTypeDef)
    requires arm in {ArmInt8, ArmUint8, ArmInt16, ArmUint16, ArmInt24, ArmUint24, ArmInt32, ArmUint32, ArmInt64, ArmUint64}
    ensures ArmType(arm, collations, ct) == ArmType(arm, collations, ct.(unsigned := !ct.unsigned))
    ensures ArmType(arm, collations, ct).Success?
  {
  }

  /** `bool` and `boolean` are spellings of an 8-bit signed integer, whatever the UNSIGNED flag says. */
  lemma BooleanIsInt8(collations: Collations, ct: ColumnTypeDef)
    requires ToLower(ct.typeName) in {"bool", "boolean"}
    ensures ColumnTypeToType(collations, ct) == Success(Int8)
  {
    CaseForAt(Cases, ToLower(ct.typeName), 0);
  }

  /**
   * DECIMAL: precision, then scale, each parsed as a signed 8-bit decimal
   * and then truncated to 8 unsigned bits; 0 when absent; the first text
   * that does not parse is the error.
   */
  lemma DecimalArm(collations: Collations, ct: ColumnTypeDef)
    ensures var r := ArmType(ArmDecimal, collations, ct);
      && (ct.length.Some? && ParseInt(ct.length.value, 8).None? ==> r == Failure(BadNumber(ct.length.value)))
      && (LengthOr(ct.length, 8, 0).Success? && ct.scale.Some? && ParseInt(ct.scale.value, 8).None? ==>
            r == Failure(BadNumber(ct.scale.value)))
      && (ct.length.None? && ct.scale.None? ==> r == Success(Decimal(0, 0)))
      && (var p := if ct.length.None? then Some(0) else ParseInt(ct.length.value, 8);
          var s := if ct.scale.None? then Some(0) else ParseInt(ct.scale.value, 8);
          p.Some? && s.Some? ==> r == Success(Decimal(Uint8Of(p.value), Uint8Of(s.value))))
      && (r.Success? ==>
            (exists p, s :: -128 <= p < 128 && -128 <= s < 128 && r.value == Decimal(Uint8Of(p), Uint8Of(s))))
  {
    var r := ArmType(ArmDecimal, collations, ct);
    if r.Success? {
      var p := LengthOr(ct.length, 8, 0).value;
      var s := LengthOr(ct.scale, 8, 0).value;
      assert Pow2(7) == 128;
      assert -128 <= p < 128 && -128 <= s < 128;
      assert r.value == Decimal(Uint8Of(p), Uint8Of(s));
    }
  }

  /** BIT: the length parsed as a signed 8-bit decimal, 1 when absent, truncated to 8 unsigned bits. */
  lemma BitArm(collations: Collations, ct: ColumnTypeDef)
    ensures var r := ArmType(ArmBit, collations, ct);
      && (ct.length.None? ==> r == Success(Bit(1)))
      && (ct.length.Some? ==> (r.Success? <==> ParseInt(ct.length.value, 8).Some?))
      && (r.Success? && ct.length.Some? ==> r.value == Bit(Uint8Of(ParseInt(ct.length.value, 8).value)))
  {
  }

  /** A negative BIT length wraps round: `bit(-1)` is 255 bits wide. */
  lemma BitLengthWraps(collations: Collations, ct: ColumnTypeDef)
    requires ct.length == Some("-1")
    ensures ArmType(ArmBit, collations, ct) == Success(Bit(255))
  {
    assert ParseInt("-1", 8) == Some(-1) by {
      assert "-1"[1..] == "1";
      assert DigitsValue("1") == DigitsValue("") * 10 + 1;
    }
  }

  /** CHAR, NCHAR and BINARY are one character long unless a length is given. */
  lemma FixedStringsDefaultToOne(arm: Arm, collations: Collations, ct: ColumnTypeDef)
    requires arm in {ArmChar, ArmNchar, ArmBinary}
    requires ct.length.None?
    requires arm == ArmChar ==> (ct.charset, ct.collate) in collations
    ensures ArmType(arm, collations, ct).Success?
    ensures ArmType(arm, collations, ct).value.StringType?
    ensures ArmType(arm, collations, ct).value.length == 1
  {
  }

  /** VARCHAR and NVARCHAR without a length are refused (VARCHAR after its collation lookup). */
  lemma VarcharNeedsLength(collations: Collations, ct: ColumnTypeDef)
    requires ct.length.None?
    ensures ArmType(ArmNvarchar, collations, ct) == Failure(Message("VARCHAR requires a length"))
    ensures ArmType(ArmVarchar, collations, ct) ==
      if (ct.charset, ct.collate) in collations then Failure(Message("VARCHAR requires a length"))
      else Failure(UnknownCollation(ct.charset, ct.collate))
  {
  }

  /** VARBINARY without a length is refused with its own message. */
  lemma VarbinaryNeedsLength(collations: Collations, ct: ColumnTypeDef)
    requires ct.length.None?
    ensures ArmType(ArmVarbinary, collations, ct) == Failure(Message("VARBINARY requires a length"))
  {
  }

  /** TEXT family sizes: the byte budget divided by the character set's bytes per character. */
  lemma TextSizes(collations: Collations, ct: ColumnTypeDef, collation: Collation)
    requires (ct.charset, ct.collate) in collations && collations[(ct.charset, ct.collate)] == collation
    ensures ArmType(ArmTinytext, collations, ct) == Success(StringType(TextBase, 255 / collation.maxLength, collation))
    ensures ct.length.None? ==>
      ArmType(ArmText, collations, ct) == Success(StringType(TextBase, 65535 / collation.maxLength, collation))
    ensures ArmType(ArmMediumtext, collations, ct) == Success(StringType(TextBase, 16777215 / collation.maxLength, collation))
    ensures ArmType(ArmLongtext, collations, ct) == Success(StringType(TextBase, 4294967295 / collation.maxLength, collation))
  {
  }

  /** ENUM and SET keep the declared values, in order, under the looked-up collation. */
  lemma EnumKeepsValues(arm: Arm, collations: Collations, ct: ColumnTypeDef)
    requires arm in {ArmEnum, ArmSet}
    ensures var r := ArmType(arm, collations, ct);
      && (r.Success? <==> (ct.charset, ct.collate) in collations)
      && (r.Success? ==> r.value.values == ct.enumValues && r.value.collation == collations[(ct.charset, ct.collate)])
  {
  }
}
