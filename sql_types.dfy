/**
 * Shared vocabulary of the model: optional and failing results, the error
 * kinds of Empire-db's ErrorObject, the column data types, render contexts,
 * the dialect phrase ids and the dialect (driver) seen by the renderer.
 */
module SqlTypes {

  /** A Java reference that may be null. */
  datatype Option<T> = None | Some(value: T) {
    function GetOr(default: T): T {
      match this
      case Some(v) => v
      case None => default
    }
  }

  /**
   * The error kinds that the core reports through ErrorObject.error(...),
   * and the runtime exceptions it lets escape.
   */
  datatype ErrorKind =
    | InvalidArg(param: string)
    | ObjectNotValid
    | NotImplemented
    | NotSupported
    | SqlException
    /** A NullPointerException the code does not catch. */
    | NullReference
    /** An ArrayIndexOutOfBoundsException the code does not catch. */
    | IndexOutOfRange

  /** A value or the error that an operation reported instead of returning null. */
  datatype Result<T> = Success(value: T) | Failure(error: ErrorKind)

  /** A boolean success flag together with the error recorded on failure. */
  datatype Status = Ok | Failed(error: ErrorKind)

  /** org.apache.empire.data.DataType */
  datatype DataType =
    | Unknown | Integer | AutoInc | Text | Date | DateTime | Char
    | Double | Decimal | Bool | Clob | Blob | UniqueId

  /**
   * A render context. The source passes a `long` bit set and tests single
   * bits (`context & CTX_ALIAS`); the model passes the set of flags that are on.
   */
  datatype CtxFlag = CtxName | CtxFullName | CtxValue | CtxAlias | CtxNoParentheses
  type Context = set<CtxFlag>

  const CTX_NAME: Context := {CtxName}
  const CTX_FULLNAME: Context := {CtxFullName}
  const CTX_DEFAULT: Context := {CtxName, CtxFullName, CtxValue}
  const CTX_ALL: Context := {CtxName, CtxFullName, CtxValue, CtxAlias}

  /**
   * Phrase ids of DBDatabaseDriver (int constants in the source; their
   * numeric values are the model's own, numbered in the order in which the
   * HSQLDB driver lists them). LITERAL_TEMPLATE is the id 0 that a function
   * node built from a literal template carries; OtherPhrase is any id the
   * HSQLDB driver does not list.
   */
  datatype PhraseId =
    | SQL_NULL_VALUE
    | SQL_PARAMETER
    | SQL_RENAME_TABLE
    | SQL_RENAME_COLUMN
    | SQL_DATABASE_LINK
    | SQL_QUOTES_OPEN
    | SQL_QUOTES_CLOSE
    | SQL_CONCAT_EXPR
    | SQL_BOOLEAN_TRUE
    | SQL_BOOLEAN_FALSE
    | SQL_CURRENT_DATE
    | SQL_DATE_PATTERN
    | SQL_DATE_TEMPLATE
    | SQL_CURRENT_DATETIME
    | SQL_DATETIME_PATTERN
    | SQL_DATETIME_TEMPLATE
    | SQL_FUNC_COALESCE
    | SQL_FUNC_SUBSTRING
    | SQL_FUNC_SUBSTRINGEX
    | SQL_FUNC_REPLACE
    | SQL_FUNC_REVERSE
    | SQL_FUNC_STRINDEX
    | SQL_FUNC_STRINDEXFROM
    | SQL_FUNC_UPPER
    | SQL_FUNC_LOWER
    | SQL_FUNC_LENGTH
    | SQL_FUNC_TRIM
    | SQL_FUNC_LTRIM
    | SQL_FUNC_RTRIM
    | SQL_FUNC_ESCAPE
    | SQL_FUNC_ABS
    | SQL_FUNC_ROUND
    | SQL_FUNC_TRUNC
    | SQL_FUNC_CEILING
    | SQL_FUNC_FLOOR
    | SQL_FUNC_DAY
    | SQL_FUNC_MONTH
    | SQL_FUNC_YEAR
    | SQL_FUNC_SUM
    | SQL_FUNC_MAX
    | SQL_FUNC_MIN
    | SQL_FUNC_AVG
    | SQL_FUNC_DECODE
    | SQL_FUNC_DECODE_SEP
    | SQL_FUNC_DECODE_PART
    | SQL_FUNC_DECODE_ELSE
    | LITERAL_TEMPLATE
    | OtherPhrase(code: int)

  /** The id as the int that String.valueOf prints. */
  function Code(p: PhraseId): int
  {
    match p
    case SQL_NULL_VALUE => 1
    case SQL_PARAMETER => 2
    case SQL_RENAME_TABLE => 3
    case SQL_RENAME_COLUMN => 4
    case SQL_DATABASE_LINK => 5
    case SQL_QUOTES_OPEN => 6
    case SQL_QUOTES_CLOSE => 7
    case SQL_CONCAT_EXPR => 8
    case SQL_BOOLEAN_TRUE => 9
    case SQL_BOOLEAN_FALSE => 10
    case SQL_CURRENT_DATE => 11
    case SQL_DATE_PATTERN => 12
    case SQL_DATE_TEMPLATE => 13
    case SQL_CURRENT_DATETIME => 14
    case SQL_DATETIME_PATTERN => 15
    case SQL_DATETIME_TEMPLATE => 16
    case SQL_FUNC_COALESCE => 17
    case SQL_FUNC_SUBSTRING => 18
    case SQL_FUNC_SUBSTRINGEX => 19
    case SQL_FUNC_REPLACE => 20
    case SQL_FUNC_REVERSE => 21
    case SQL_FUNC_STRINDEX => 22
    case SQL_FUNC_STRINDEXFROM => 23
    case SQL_FUNC_UPPER => 24
    case SQL_FUNC_LOWER => 25
    case SQL_FUNC_LENGTH => 26
    case SQL_FUNC_TRIM => 27
    case SQL_FUNC_LTRIM => 28
    case SQL_FUNC_RTRIM => 29
    case SQL_FUNC_ESCAPE => 30
    case SQL_FUNC_ABS => 31
    case SQL_FUNC_ROUND => 32
    case SQL_FUNC_TRUNC => 33
    case SQL_FUNC_CEILING => 34
    case SQL_FUNC_FLOOR => 35
    case SQL_FUNC_DAY => 36
    case SQL_FUNC_MONTH => 37
    case SQL_FUNC_YEAR => 38
    case SQL_FUNC_SUM => 39
    case SQL_FUNC_MAX => 40
    case SQL_FUNC_MIN => 41
    case SQL_FUNC_AVG => 42
    case SQL_FUNC_DECODE => 43
    case SQL_FUNC_DECODE_SEP => 44
    case SQL_FUNC_DECODE_PART => 45
    case SQL_FUNC_DECODE_ELSE => 46
    case LITERAL_TEMPLATE => 0
    case OtherPhrase(c) => c
  }

  /**
   * What the renderer asks of a database driver: the phrase template for a
   * phrase id, or None where a driver's getSQLPhrase returns null.
   */
  datatype Dialect = Dialect(phrase: PhraseId -> Option<string>)
}
