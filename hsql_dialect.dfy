/**
 * The HSQLDB dialect tables of DBDatabaseDriverHSql: supported features,
 * SQL phrases and conversion templates. Each is total; a miss degrades to
 * the bare placeholder "?".
 */
module HSqlDialect {
  import opened SqlTypes
  import opened Text
  import opened Schema
  import opened ColumnExprs
  import opened FuncExprs

  /** DBDriverFeature: the two features the driver names, and every other one. */
  datatype DriverFeature = CreateSchema | Sequences | OtherFeature(name: string)

  /** isSupported(type) */
  function IsSupported(f: DriverFeature): bool
  {
    match f
    case CreateSchema => false
    case Sequences => true
    case OtherFeature(_) => false
  }

  /** Sequences are the one supported feature. */
  lemma OnlySequencesSupported(f: DriverFeature)
    ensures IsSupported(f) <==> f == Sequences
  {
  }

  /**
   * getSQLPhrase(phrase): the listed template, or "?" for an id the driver
   * does not define. The one switch of the driver is written here as three
   * tables: the string functions, the other functions, and the rest.
   */
  function SqlPhrase(phrase: PhraseId): string
  {
    if StringFunctionPhrase(phrase) then StringFunctionTemplate(phrase)
    else if NumericFunctionPhrase(phrase) then NumericFunctionTemplate(phrase)
    else BasicPhrase(phrase)
  }

  /** Values, names, quoting, literals, dates and the parts of DECODE. */
  function BasicPhrase(phrase: PhraseId): string
  {
    match phrase
    case SQL_NULL_VALUE => "null"
    case SQL_PARAMETER => " ? "
    case SQL_RENAME_TABLE => " "
    case SQL_RENAME_COLUMN => " AS "
    case SQL_DATABASE_LINK => "@"
    case SQL_QUOTES_OPEN => "\""
    case SQL_QUOTES_CLOSE => "\""
    case SQL_CONCAT_EXPR => "concat(?, {0})"
    case SQL_BOOLEAN_TRUE => "true"
    case SQL_BOOLEAN_FALSE => "false"
    case SQL_CURRENT_DATE => "CURRENT_DATE"
    case SQL_DATE_PATTERN => "yyyy-MM-dd"
    case SQL_DATE_TEMPLATE => "'{0}'"
    case SQL_CURRENT_DATETIME => "CURRENT_TIMESTAMP"
    case SQL_DATETIME_PATTERN => "yyyy-MM-dd HH:mm:ss.S"
    case SQL_DATETIME_TEMPLATE => "'{0}'"
    case SQL_FUNC_DECODE_SEP => " "
    case SQL_FUNC_DECODE_PART => "when {0} then {1}"
    case SQL_FUNC_DECODE_ELSE => "else {0}"
    case _ => "?"
  }

  /** The string functions, SQL_FUNC_COALESCE through SQL_FUNC_ESCAPE. */
  function StringFunctionTemplate(phrase: PhraseId): string
  {
    match phrase
    case SQL_FUNC_COALESCE => "coalesce(?, {0})"
    case SQL_FUNC_SUBSTRING => "substr(?, {0})"
    case SQL_FUNC_SUBSTRINGEX => "substr(?, {0}, {1})"
    case SQL_FUNC_REPLACE => "replace(?, {0}, {1})"
    case SQL_FUNC_REVERSE => "?"
    case SQL_FUNC_STRINDEX => "locate({0}, ?)"
    case SQL_FUNC_STRINDEXFROM => "locate({0}, ?, {1})"
    case SQL_FUNC_UPPER => "ucase(?)"
    case SQL_FUNC_LOWER => "lcase(?)"
    case SQL_FUNC_LENGTH => "length(?)"
    case SQL_FUNC_TRIM => "trim(?)"
    case SQL_FUNC_LTRIM => "ltrim(?)"
    case SQL_FUNC_RTRIM => "rtrim(?)"
    case SQL_FUNC_ESCAPE => "? escape '{0}'"
    case _ => "?"
  }

  /** The numeric, date, aggregate and decode functions, SQL_FUNC_ABS through SQL_FUNC_DECODE. */
  function NumericFunctionTemplate(phrase: PhraseId): string
  {
    match phrase
    case SQL_FUNC_ABS => "abs(?)"
    case SQL_FUNC_ROUND => "round(?,{0})"
    case SQL_FUNC_TRUNC => "truncate(?,{0})"
    case SQL_FUNC_CEILING => "ceiling(?)"
    case SQL_FUNC_FLOOR => "floor(?)"
    case SQL_FUNC_DAY => "day(?)"
    case SQL_FUNC_MONTH => "month(?)"
    case SQL_FUNC_YEAR => "year(?)"
    case SQL_FUNC_SUM => "sum(?)"
    case SQL_FUNC_MAX => "max(?)"
    case SQL_FUNC_MIN => "min(?)"
    case SQL_FUNC_AVG => "avg(?)"
    case SQL_FUNC_DECODE => "case ?{0} end"
    case _ => "?"
  }

  /** The ids the driver lists: every id but the literal-template id and the unknown ones. */
  predicate Listed(phrase: PhraseId)
  {
    !phrase.LITERAL_TEMPLATE? && !phrase.OtherPhrase?
  }

  /** The driver as the renderer sees it: it has a phrase for every id. */
  const HSql: Dialect := Dialect(id => Some(SqlPhrase(id)))

  /**
   * getSQLPhrase is total: an unlisted id gives the placeholder, and of the
   * listed ids only SQL_FUNC_REVERSE (whose "reverse(?)" is disabled) does.
   */
  lemma PhraseTableDegrades(phrase: PhraseId)
    ensures SqlPhrase(phrase) == "?" <==> !Listed(phrase) || phrase == SQL_FUNC_REVERSE
    ensures HSql.phrase(phrase) == Some(SqlPhrase(phrase))
  {
    if !Listed(phrase) {
      UnlistedPhrases(phrase);
    } else if phrase.SQL_FUNC_COALESCE? || phrase.SQL_FUNC_SUBSTRING? || phrase.SQL_FUNC_SUBSTRINGEX?
      || phrase.SQL_FUNC_REPLACE? {
      SubstringPhrases(phrase);
    } else if phrase.SQL_FUNC_REVERSE? || phrase.SQL_FUNC_STRINDEX? || phrase.SQL_FUNC_STRINDEXFROM? {
      LocatePhrases(phrase);
    } else if phrase.SQL_FUNC_UPPER? || phrase.SQL_FUNC_LOWER? || phrase.SQL_FUNC_LENGTH? {
      CasePhrases(phrase);
    } else if phrase.SQL_FUNC_TRIM? || phrase.SQL_FUNC_LTRIM? || phrase.SQL_FUNC_RTRIM?
      || phrase.SQL_FUNC_ESCAPE? {
      TrimPhrases(phrase);
    } else if phrase.SQL_FUNC_ABS? || phrase.SQL_FUNC_ROUND? || phrase.SQL_FUNC_TRUNC?
      || phrase.SQL_FUNC_CEILING? || phrase.SQL_FUNC_FLOOR? {
      NumberPhrases(phrase);
    } else if phrase.SQL_FUNC_DAY? || phrase.SQL_FUNC_MONTH? || phrase.SQL_FUNC_YEAR? {
      DatePhrases(phrase);
    } else if phrase.SQL_FUNC_SUM? || phrase.SQL_FUNC_MAX? || phrase.SQL_FUNC_MIN? || phrase.SQL_FUNC_AVG?
      || phrase.SQL_FUNC_DECODE? {
      AggregatePhrases(phrase);
    } else if phrase.SQL_NULL_VALUE? || phrase.SQL_PARAMETER? || phrase.SQL_RENAME_TABLE?
      || phrase.SQL_RENAME_COLUMN? || phrase.SQL_DATABASE_LINK? {
      NamePhrases(phrase);
    } else if phrase.SQL_QUOTES_OPEN? || phrase.SQL_QUOTES_CLOSE? || phrase.SQL_CONCAT_EXPR?
      || phrase.SQL_BOOLEAN_TRUE? || phrase.SQL_BOOLEAN_FALSE? {
      LiteralPhrases(phrase);
    } else if phrase.SQL_CURRENT_DATE? || phrase.SQL_DATE_PATTERN? || phrase.SQL_DATE_TEMPLATE? {
      DateLiteralPhrases(phrase);
    } else if phrase.SQL_CURRENT_DATETIME? || phrase.SQL_DATETIME_PATTERN? || phrase.SQL_DATETIME_TEMPLATE? {
      DateTimeLiteralPhrases(phrase);
    } else {
      DecodePartPhrases(phrase);
    }
  }

  /** The function phrases, SQL_FUNC_COALESCE through SQL_FUNC_DECODE, in two groups. */
  predicate IsFunctionPhrase(phrase: PhraseId)
  {
    StringFunctionPhrase(phrase) || NumericFunctionPhrase(phrase)
  }

  /** Every function template has the operand placeholder. */
  lemma FunctionTemplatesHavePlaceholder(phrase: PhraseId)
    requires IsFunctionPhrase(phrase)
    ensures '?' in SqlPhrase(phrase)
  {
    if phrase.SQL_FUNC_COALESCE? || phrase.SQL_FUNC_SUBSTRING? || phrase.SQL_FUNC_SUBSTRINGEX?
      || phrase.SQL_FUNC_REPLACE? {
      SubstringPhrases(phrase);
    } else if phrase.SQL_FUNC_REVERSE? || phrase.SQL_FUNC_STRINDEX? || phrase.SQL_FUNC_STRINDEXFROM? {
      LocatePhrases(phrase);
    } else if phrase.SQL_FUNC_UPPER? || phrase.SQL_FUNC_LOWER? || phrase.SQL_FUNC_LENGTH? {
      CasePhrases(phrase);
    } else if phrase.SQL_FUNC_TRIM? || phrase.SQL_FUNC_LTRIM? || phrase.SQL_FUNC_RTRIM?
      || phrase.SQL_FUNC_ESCAPE? {
      TrimPhrases(phrase);
    } else if phrase.SQL_FUNC_ABS? || phrase.SQL_FUNC_ROUND? || phrase.SQL_FUNC_TRUNC?
      || phrase.SQL_FUNC_CEILING? || phrase.SQL_FUNC_FLOOR? {
      NumberPhrases(phrase);
    } else if phrase.SQL_FUNC_DAY? || phrase.SQL_FUNC_MONTH? || phrase.SQL_FUNC_YEAR? {
      DatePhrases(phrase);
    } else {
      AggregatePhrases(phrase);
    }
  }

  /** The ids of the string functions. */
  predicate StringFunctionPhrase(phrase: PhraseId)
  {
    phrase.SQL_FUNC_COALESCE? || phrase.SQL_FUNC_SUBSTRING? || phrase.SQL_FUNC_SUBSTRINGEX?
    || phrase.SQL_FUNC_REPLACE? || phrase.SQL_FUNC_REVERSE? || phrase.SQL_FUNC_STRINDEX?
    || phrase.SQL_FUNC_STRINDEXFROM? || phrase.SQL_FUNC_UPPER? || phrase.SQL_FUNC_LOWER?
    || phrase.SQL_FUNC_LENGTH? || phrase.SQL_FUNC_TRIM? || phrase.SQL_FUNC_LTRIM? || phrase.SQL_FUNC_RTRIM?
    || phrase.SQL_FUNC_ESCAPE?
  }

  /** The ids of the other functions. */
  predicate NumericFunctionPhrase(phrase: PhraseId)
  {
    phrase.SQL_FUNC_ABS? || phrase.SQL_FUNC_ROUND? || phrase.SQL_FUNC_TRUNC? || phrase.SQL_FUNC_CEILING?
    || phrase.SQL_FUNC_FLOOR? || phrase.SQL_FUNC_DAY? || phrase.SQL_FUNC_MONTH? || phrase.SQL_FUNC_YEAR?
    || phrase.SQL_FUNC_SUM? || phrase.SQL_FUNC_MAX? || phrase.SQL_FUNC_MIN? || phrase.SQL_FUNC_AVG?
    || phrase.SQL_FUNC_DECODE?
  }

  /** The templates of coalesce, substring and replace hold the placeholder. */
  lemma SubstringPhrases(phrase: PhraseId)
    requires phrase.SQL_FUNC_COALESCE? || phrase.SQL_FUNC_SUBSTRING? || phrase.SQL_FUNC_SUBSTRINGEX?
      || phrase.SQL_FUNC_REPLACE?
    ensures '?' in SqlPhrase(phrase)
    ensures SqlPhrase(phrase) == "?" <==> !Listed(phrase) || phrase == SQL_FUNC_REVERSE
  {
    if phrase.SQL_FUNC_COALESCE? {
      assert SqlPhrase(SQL_FUNC_COALESCE)[9] == '?';
      assert |SqlPhrase(SQL_FUNC_COALESCE)| == 16;
    } else if phrase.SQL_FUNC_SUBSTRING? {
      assert SqlPhrase(SQL_FUNC_SUBSTRING)[7] == '?';
      assert |SqlPhrase(SQL_FUNC_SUBSTRING)| == 14;
    } else if phrase.SQL_FUNC_SUBSTRINGEX? {
      assert SqlPhrase(SQL_FUNC_SUBSTRINGEX)[7] == '?';
      assert |SqlPhrase(SQL_FUNC_SUBSTRINGEX)| == 19;
    } else {
      assert SqlPhrase(SQL_FUNC_REPLACE)[8] == '?';
      assert |SqlPhrase(SQL_FUNC_REPLACE)| == 20;
    }
  }

  /** The templates of reverse and locate hold the placeholder. */
  lemma LocatePhrases(phrase: PhraseId)
    requires phrase.SQL_FUNC_REVERSE? || phrase.SQL_FUNC_STRINDEX? || phrase.SQL_FUNC_STRINDEXFROM?
    ensures '?' in SqlPhrase(phrase)
    ensures SqlPhrase(phrase) == "?" <==> !Listed(phrase) || phrase == SQL_FUNC_REVERSE
  {
    if phrase.SQL_FUNC_REVERSE? {
      assert SqlPhrase(SQL_FUNC_REVERSE)[0] == '?';
    } else if phrase.SQL_FUNC_STRINDEX? {
      assert SqlPhrase(SQL_FUNC_STRINDEX)[12] == '?';
      assert |SqlPhrase(SQL_FUNC_STRINDEX)| == 14;
    } else {
      assert SqlPhrase(SQL_FUNC_STRINDEXFROM)[12] == '?';
      assert |SqlPhrase(SQL_FUNC_STRINDEXFROM)| == 19;
    }
  }

  /** The templates of upper, lower and length hold the placeholder. */
  lemma CasePhrases(phrase: PhraseId)
    requires phrase.SQL_FUNC_UPPER? || phrase.SQL_FUNC_LOWER? || phrase.SQL_FUNC_LENGTH?
    ensures '?' in SqlPhrase(phrase)
    ensures SqlPhrase(phrase) == "?" <==> !Listed(phrase) || phrase == SQL_FUNC_REVERSE
  {
    if phrase.SQL_FUNC_UPPER? {
      assert SqlPhrase(SQL_FUNC_UPPER)[6] == '?';
      assert |SqlPhrase(SQL_FUNC_UPPER)| == 8;
    } else if phrase.SQL_FUNC_LOWER? {
      assert SqlPhrase(SQL_FUNC_LOWER)[6] == '?';
      assert |SqlPhrase(SQL_FUNC_LOWER)| == 8;
    } else {
      assert SqlPhrase(SQL_FUNC_LENGTH)[7] == '?';
      assert |SqlPhrase(SQL_FUNC_LENGTH)| == 9;
    }
  }

  /** The templates of trim and escape hold the placeholder. */
  lemma TrimPhrases(phrase: PhraseId)
    requires phrase.SQL_FUNC_TRIM? || phrase.SQL_FUNC_LTRIM? || phrase.SQL_FUNC_RTRIM?
      || phrase.SQL_FUNC_ESCAPE?
    ensures '?' in SqlPhrase(phrase)
    ensures SqlPhrase(phrase) == "?" <==> !Listed(phrase) || phrase == SQL_FUNC_REVERSE
  {
    if phrase.SQL_FUNC_TRIM? {
      assert SqlPhrase(SQL_FUNC_TRIM)[5] == '?';
      assert |SqlPhrase(SQL_FUNC_TRIM)| == 7;
    } else if phrase.SQL_FUNC_LTRIM? {
      assert SqlPhrase(SQL_FUNC_LTRIM)[6] == '?';
      assert |SqlPhrase(SQL_FUNC_LTRIM)| == 8;
    } else if phrase.SQL_FUNC_RTRIM? {
      assert SqlPhrase(SQL_FUNC_RTRIM)[6] == '?';
      assert |SqlPhrase(SQL_FUNC_RTRIM)| == 8;
    } else {
      assert SqlPhrase(SQL_FUNC_ESCAPE)[0] == '?';
      assert |SqlPhrase(SQL_FUNC_ESCAPE)| == 14;
    }
  }

  /** The templates of abs, round, truncate, ceiling and floor hold the placeholder. */
  lemma NumberPhrases(phrase: PhraseId)
    requires phrase.SQL_FUNC_ABS? || phrase.SQL_FUNC_ROUND? || phrase.SQL_FUNC_TRUNC?
      || phrase.SQL_FUNC_CEILING? || phrase.SQL_FUNC_FLOOR?
    ensures '?' in SqlPhrase(phrase)
    ensures SqlPhrase(phrase) == "?" <==> !Listed(phrase) || phrase == SQL_FUNC_REVERSE
  {
    if phrase.SQL_FUNC_ABS? {
      assert SqlPhrase(SQL_FUNC_ABS)[4] == '?';
      assert |SqlPhrase(SQL_FUNC_ABS)| == 6;
    } else if phrase.SQL_FUNC_ROUND? {
      assert SqlPhrase(SQL_FUNC_ROUND)[6] == '?';
      assert |SqlPhrase(SQL_FUNC_ROUND)| == 12;
    } else if phrase.SQL_FUNC_TRUNC? {
      assert SqlPhrase(SQL_FUNC_TRUNC)[9] == '?';
      assert |SqlPhrase(SQL_FUNC_TRUNC)| == 15;
    } else if phrase.SQL_FUNC_CEILING? {
      assert SqlPhrase(SQL_FUNC_CEILING)[8] == '?';
      assert |SqlPhrase(SQL_FUNC_CEILING)| == 10;
    } else {
      assert SqlPhrase(SQL_FUNC_FLOOR)[6] == '?';
      assert |SqlPhrase(SQL_FUNC_FLOOR)| == 8;
    }
  }

  /** The templates of day, month and year hold the placeholder. */
  lemma DatePhrases(phrase: PhraseId)
    requires phrase.SQL_FUNC_DAY? || phrase.SQL_FUNC_MONTH? || phrase.SQL_FUNC_YEAR?
    ensures '?' in SqlPhrase(phrase)
    ensures SqlPhrase(phrase) == "?" <==> !Listed(phrase) || phrase == SQL_FUNC_REVERSE
  {
    if phrase.SQL_FUNC_DAY? {
      assert SqlPhrase(SQL_FUNC_DAY)[4] == '?';
      assert |SqlPhrase(SQL_FUNC_DAY)| == 6;
    } else if phrase.SQL_FUNC_MONTH? {
      assert SqlPhrase(SQL_FUNC_MONTH)[6] == '?';
      assert |SqlPhrase(SQL_FUNC_MONTH)| == 8;
    } else {
      assert SqlPhrase(SQL_FUNC_YEAR)[5] == '?';
      assert |SqlPhrase(SQL_FUNC_YEAR)| == 7;
    }
  }

  /** The templates of the aggregates and decode hold the placeholder. */
  lemma AggregatePhrases(phrase: PhraseId)
    requires phrase.SQL_FUNC_SUM? || phrase.SQL_FUNC_MAX? || phrase.SQL_FUNC_MIN? || phrase.SQL_FUNC_AVG?
      || phrase.SQL_FUNC_DECODE?
    ensures '?' in SqlPhrase(phrase)
    ensures SqlPhrase(phrase) == "?" <==> !Listed(phrase) || phrase == SQL_FUNC_REVERSE
  {
    if phrase.SQL_FUNC_SUM? {
      assert SqlPhrase(SQL_FUNC_SUM)[4] == '?';
      assert |SqlPhrase(SQL_FUNC_SUM)| == 6;
    } else if phrase.SQL_FUNC_MAX? {
      assert SqlPhrase(SQL_FUNC_MAX)[4] == '?';
      assert |SqlPhrase(SQL_FUNC_MAX)| == 6;
    } else if phrase.SQL_FUNC_MIN? {
      assert SqlPhrase(SQL_FUNC_MIN)[4] == '?';
      assert |SqlPhrase(SQL_FUNC_MIN)| == 6;
    } else if phrase.SQL_FUNC_AVG? {
      assert SqlPhrase(SQL_FUNC_AVG)[4] == '?';
      assert |SqlPhrase(SQL_FUNC_AVG)| == 6;
    } else {
      assert SqlPhrase(SQL_FUNC_DECODE)[5] == '?';
      assert |SqlPhrase(SQL_FUNC_DECODE)| == 13;
    }
  }

  /** The phrases for null, parameter, renaming and links are all defined. */
  lemma NamePhrases(phrase: PhraseId)
    requires phrase.SQL_NULL_VALUE? || phrase.SQL_PARAMETER? || phrase.SQL_RENAME_TABLE?
      || phrase.SQL_RENAME_COLUMN? || phrase.SQL_DATABASE_LINK?
    ensures SqlPhrase(phrase) == "?" <==> !Listed(phrase) || phrase == SQL_FUNC_REVERSE
  {
    if phrase.SQL_NULL_VALUE? {
      assert |SqlPhrase(SQL_NULL_VALUE)| == 4;
    } else if phrase.SQL_PARAMETER? {
      assert |SqlPhrase(SQL_PARAMETER)| == 3;
    } else if phrase.SQL_RENAME_TABLE? {
      assert SqlPhrase(SQL_RENAME_TABLE)[0] != '?';
    } else if phrase.SQL_RENAME_COLUMN? {
      assert |SqlPhrase(SQL_RENAME_COLUMN)| == 4;
    } else {
      assert SqlPhrase(SQL_DATABASE_LINK)[0] != '?';
    }
  }

  /** The phrases for quotes, concatenation and booleans are all defined. */
  lemma LiteralPhrases(phrase: PhraseId)
    requires phrase.SQL_QUOTES_OPEN? || phrase.SQL_QUOTES_CLOSE? || phrase.SQL_CONCAT_EXPR?
      || phrase.SQL_BOOLEAN_TRUE? || phrase.SQL_BOOLEAN_FALSE?
    ensures SqlPhrase(phrase) == "?" <==> !Listed(phrase) || phrase == SQL_FUNC_REVERSE
  {
    if phrase.SQL_QUOTES_OPEN? {
      assert SqlPhrase(SQL_QUOTES_OPEN)[0] != '?';
    } else if phrase.SQL_QUOTES_CLOSE? {
      assert SqlPhrase(SQL_QUOTES_CLOSE)[0] != '?';
    } else if phrase.SQL_CONCAT_EXPR? {
      assert |SqlPhrase(SQL_CONCAT_EXPR)| == 14;
    } else if phrase.SQL_BOOLEAN_TRUE? {
      assert |SqlPhrase(SQL_BOOLEAN_TRUE)| == 4;
    } else {
      assert |SqlPhrase(SQL_BOOLEAN_FALSE)| == 5;
    }
  }

  /** The phrases for the current date and date literals are all defined. */
  lemma DateLiteralPhrases(phrase: PhraseId)
    requires phrase.SQL_CURRENT_DATE? || phrase.SQL_DATE_PATTERN? || phrase.SQL_DATE_TEMPLATE?
    ensures SqlPhrase(phrase) == "?" <==> !Listed(phrase) || phrase == SQL_FUNC_REVERSE
  {
    if phrase.SQL_CURRENT_DATE? {
      assert |SqlPhrase(SQL_CURRENT_DATE)| == 12;
    } else if phrase.SQL_DATE_PATTERN? {
      assert |SqlPhrase(SQL_DATE_PATTERN)| == 10;
    } else {
      assert |SqlPhrase(SQL_DATE_TEMPLATE)| == 5;
    }
  }

  /** The phrases for the current time and date-time literals are all defined. */
  lemma DateTimeLiteralPhrases(phrase: PhraseId)
    requires phrase.SQL_CURRENT_DATETIME? || phrase.SQL_DATETIME_PATTERN? || phrase.SQL_DATETIME_TEMPLATE?
    ensures SqlPhrase(phrase) == "?" <==> !Listed(phrase) || phrase == SQL_FUNC_REVERSE
  {
    if phrase.SQL_CURRENT_DATETIME? {
      assert |SqlPhrase(SQL_CURRENT_DATETIME)| == 17;
    } else if phrase.SQL_DATETIME_PATTERN? {
      assert |SqlPhrase(SQL_DATETIME_PATTERN)| == 21;
    } else {
      assert |SqlPhrase(SQL_DATETIME_TEMPLATE)| == 5;
    }
  }

  /** The phrases for the parts of decode are all defined. */
  lemma DecodePartPhrases(phrase: PhraseId)
    requires phrase.SQL_FUNC_DECODE_SEP? || phrase.SQL_FUNC_DECODE_PART? || phrase.SQL_FUNC_DECODE_ELSE?
    ensures SqlPhrase(phrase) == "?" <==> !Listed(phrase) || phrase == SQL_FUNC_REVERSE
  {
    if phrase.SQL_FUNC_DECODE_SEP? {
      assert SqlPhrase(SQL_FUNC_DECODE_SEP)[0] != '?';
    } else if phrase.SQL_FUNC_DECODE_PART? {
      assert |SqlPhrase(SQL_FUNC_DECODE_PART)| == 17;
    } else {
      assert |SqlPhrase(SQL_FUNC_DECODE_ELSE)| == 8;
    }
  }

  /** The ids the driver does not list fall to the default placeholder. */
  lemma UnlistedPhrases(phrase: PhraseId)
    requires !Listed(phrase)
    ensures SqlPhrase(phrase) == "?" <==> !Listed(phrase) || phrase == SQL_FUNC_REVERSE
  {
  }

  /** getFunctionName takes "ucase" from the HSQLDB template "ucase(?)". */
  lemma HSqlUpperName(t: string)
    requires t == SqlPhrase(SQL_FUNC_UPPER)
    ensures FunctionNameOf(Some(t), SQL_FUNC_UPPER) == "ucase"
  {
    assert t == t[..5] + t[5..];
    FunctionNameIsLeadingWord(t[..5], t[5..], SQL_FUNC_UPPER);
  }

  /** getFunctionName of the HSQLDB template "?" of SQL_FUNC_REVERSE falls back to "func_" and the id. */
  lemma HSqlReverseName(t: string)
    requires t == SqlPhrase(SQL_FUNC_REVERSE)
    ensures FunctionNameOf(Some(t), SQL_FUNC_REVERSE) == "func_21"
  {
    LocatePhrases(SQL_FUNC_REVERSE);
    assert |t| == 1 && t[0] == '?';
    FunctionNameFallsBack(t, SQL_FUNC_REVERSE);
    assert Code(SQL_FUNC_REVERSE) == 21;
    assert NatToString(2) == "2";
    assert NatToString(21) == NatToString(2) + "1";
  }

  /** A column upper-cased with the HSQLDB driver renders as ucase(column). */
  lemma HSqlUpperRenders(c: Column, ctx: Context, u: Option<ColumnExpr>)
    ensures Render(Func(TableCol(c), SQL_FUNC_UPPER, None, [], u, false, Text), ctx, HSql)
      == "ucase(" + ColumnSql(c, ctx) + ")"
  {
    assert ColumnSql(c, ctx - {CtxAlias}) == ColumnSql(c, ctx);
    assert SqlPhrase(SQL_FUNC_UPPER) == "ucase(" + "?" + ")";
    SubstituteSingle("ucase(", ")", ColumnSql(c, ctx), []);
  }

  /** An aliased column in an alias context renders "column AS ALIAS" with the HSQLDB driver. */
  lemma HSqlAliasRenders(c: Column, a: string)
    ensures Render(MkAlias(TableCol(c), a), CTX_ALL, HSql) == ColumnSql(c, CTX_ALL) + " AS " + ToUpper(a)
  {
  }

  /** getConvertPhrase(destType, srcType, format) */
  function ConvertPhrase(dest: DataType, src: DataType, format: Option<string>): string
  {
    match dest
    case Text | Char =>
      if format.Some? then
        if src == Integer || src == AutoInc then "?"
        else "to_char(?, '" + format.value + "')"
      else "convert(?, CHAR)"
    case Integer => "convert(?, BIGINT)"
    case Decimal => "convert(?, DECIMAL)"
    case Double => "convert(?, DOUBLE)"
    case _ => "?"
  }

  /**
   * A conversion degrades to the bare placeholder exactly for a destination
   * the driver does not convert to, and for a formatted text conversion of an
   * integer; every template holds the placeholder.
   */
  lemma ConvertPhraseDegrades(dest: DataType, src: DataType, format: Option<string>)
    ensures ConvertPhrase(dest, src, format) == "?" <==>
      dest !in {Text, Char, Integer, Decimal, Double}
      || (dest in {Text, Char} && format.Some? && src in {Integer, AutoInc})
    ensures '?' in ConvertPhrase(dest, src, format)
  {
    var r := ConvertPhrase(dest, src, format);
    if r == "?" {
      assert r[0] == '?';
    } else {
      assert r[8] == '?';
    }
  }

  /** Text conversions with a format name the format inside to_char. */
  lemma ConvertWithFormat(dest: DataType, src: DataType, fmt: string)
    requires dest == Text || dest == Char
    requires src != Integer && src != AutoInc
    ensures ConvertPhrase(dest, src, Some(fmt)) == "to_char(?, '" + fmt + "')"
    ensures ConvertPhrase(dest, src, None) == "convert(?, CHAR)"
  {
  }
}
