/** The names of the terminal symbols, by code. Code 0 is the end of input. */
module Tokens {

  const N_TOKENS: nat := 143

  const TOKEN_NAMES: seq<seq<string>> := [
    ["$", "SEMI", "EXPLAIN", "QUERY", "PLAN", "BEGIN", "TRANSACTION", "DEFERRED", "IMMEDIATE",
     "EXCLUSIVE", "COMMIT", "END", "ROLLBACK"],
    ["SAVEPOINT", "RELEASE", "TO", "TABLE", "CREATE", "IF", "NOT", "EXISTS", "TEMP", "LP", "RP",
     "AS", "WITHOUT"],
    ["COMMA", "OR", "AND", "IS", "MATCH", "LIKE_KW", "BETWEEN", "IN", "ISNULL", "NOTNULL", "NE", "EQ", "GT"],
    ["LE", "LT", "GE", "ESCAPE", "BITAND", "BITOR", "LSHIFT", "RSHIFT", "PLUS", "MINUS", "STAR",
     "SLASH", "REM"],
    ["CONCAT", "COLLATE", "BITNOT", "ID", "INDEXED", "ABORT", "ACTION", "AFTER", "ANALYZE", "ASC",
     "ATTACH", "BEFORE", "BY"],
    ["CASCADE", "CAST", "COLUMNKW", "CONFLICT", "DATABASE", "DESC", "DETACH", "EACH", "FAIL",
     "FOR", "IGNORE", "INITIALLY", "INSTEAD"],
    ["NO", "KEY", "OF", "OFFSET", "PRAGMA", "RAISE", "RECURSIVE", "REPLACE", "RESTRICT", "ROW",
     "TRIGGER", "VACUUM", "VIEW"],
    ["VIRTUAL", "WITH", "REINDEX", "RENAME", "CTIME_KW", "ANY", "STRING", "JOIN_KW", "CONSTRAINT",
     "DEFAULT", "NULL", "PRIMARY", "UNIQUE"],
    ["CHECK", "REFERENCES", "AUTOINCR", "ON", "INSERT", "DELETE", "UPDATE", "SET", "DEFERRABLE",
     "FOREIGN", "DROP", "UNION", "ALL"],
    ["EXCEPT", "INTERSECT", "SELECT", "VALUES", "DISTINCT", "DOT", "FROM", "JOIN", "USING",
     "ORDER", "GROUP", "HAVING", "LIMIT"],
    ["WHERE", "INTO", "FLOAT", "BLOB", "INTEGER", "VARIABLE", "CASE", "WHEN", "THEN", "ELSE",
     "INDEX", "ALTER", "ADD"]
  ]

  lemma TokenShape()
    ensures |TOKEN_NAMES| == 11 && forall r :: 0 <= r < 11 ==> |TOKEN_NAMES[r]| == 13
  {
  }

  function TokenAt(code: nat): string
    requires code < N_TOKENS
  {
    TokenShape();
    TOKEN_NAMES[code / 13][code % 13]
  }
}
