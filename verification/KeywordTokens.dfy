/** The token numbers of parse.h, and the token of each keyword, by its spelling. */
module KeywordTokens {

  const TK_EXPLAIN := 2
  const TK_QUERY := 3
  const TK_PLAN := 4
  const TK_BEGIN := 5
  const TK_TRANSACTION := 6
  const TK_DEFERRED := 7
  const TK_IMMEDIATE := 8
  const TK_EXCLUSIVE := 9
  const TK_COMMIT := 10
  const TK_END := 11
  const TK_ROLLBACK := 12
  const TK_SAVEPOINT := 13
  const TK_RELEASE := 14
  const TK_TO := 15
  const TK_TABLE := 16
  const TK_CREATE := 17
  const TK_IF := 18
  const TK_NOT := 19
  const TK_EXISTS := 20
  const TK_TEMP := 21
  const TK_AS := 24
  const TK_WITHOUT := 25
  const TK_OR := 27
  const TK_AND := 28
  const TK_IS := 29
  const TK_MATCH := 30
  const TK_LIKE_KW := 31
  const TK_BETWEEN := 32
  const TK_IN := 33
  const TK_ISNULL := 34
  const TK_NOTNULL := 35
  const TK_ESCAPE := 42
  const TK_COLLATE := 53
  const TK_ID := 55
  const TK_INDEXED := 56
  const TK_ABORT := 57
  const TK_ACTION := 58
  const TK_AFTER := 59
  const TK_ANALYZE := 60
  const TK_ASC := 61
  const TK_ATTACH := 62
  const TK_BEFORE := 63
  const TK_BY := 64
  const TK_CASCADE := 65
  const TK_CAST := 66
  const TK_COLUMNKW := 67
  const TK_CONFLICT := 68
  const TK_DATABASE := 69
  const TK_DESC := 70
  const TK_DETACH := 71
  const TK_EACH := 72
  const TK_FAIL := 73
  const TK_FOR := 74
  const TK_IGNORE := 75
  const TK_INITIALLY := 76
  const TK_INSTEAD := 77
  const TK_NO := 78
  const TK_KEY := 79
  const TK_OF := 80
  const TK_OFFSET := 81
  const TK_PRAGMA := 82
  const TK_RAISE := 83
  const TK_RECURSIVE := 84
  const TK_REPLACE := 85
  const TK_RESTRICT := 86
  const TK_ROW := 87
  const TK_TRIGGER := 88
  const TK_VACUUM := 89
  const TK_VIEW := 90
  const TK_VIRTUAL := 91
  const TK_WITH := 92
  const TK_REINDEX := 93
  const TK_RENAME := 94
  const TK_CTIME_KW := 95
  const TK_JOIN_KW := 98
  const TK_CONSTRAINT := 99
  const TK_DEFAULT := 100
  const TK_NULL := 101
  const TK_PRIMARY := 102
  const TK_UNIQUE := 103
  const TK_CHECK := 104
  const TK_REFERENCES := 105
  const TK_AUTOINCR := 106
  const TK_ON := 107
  const TK_INSERT := 108
  const TK_DELETE := 109
  const TK_UPDATE := 110
  const TK_SET := 111
  const TK_DEFERRABLE := 112
  const TK_FOREIGN := 113
  const TK_DROP := 114
  const TK_UNION := 115
  const TK_ALL := 116
  const TK_EXCEPT := 117
  const TK_INTERSECT := 118
  const TK_SELECT := 119
  const TK_VALUES := 120
  const TK_DISTINCT := 121
  const TK_FROM := 123
  const TK_JOIN := 124
  const TK_USING := 125
  const TK_ORDER := 126
  const TK_GROUP := 127
  const TK_HAVING := 128
  const TK_LIMIT := 129
  const TK_WHERE := 130
  const TK_INTO := 131
  const TK_CASE := 136
  const TK_WHEN := 137
  const TK_THEN := 138
  const TK_ELSE := 139
  const TK_INDEX := 140
  const TK_ALTER := 141
  const TK_ADD := 142

  function WordsInA(word: string): nat {
    if word == "ABORT" then TK_ABORT else
    if word == "ACTION" then TK_ACTION else
    if word == "ADD" then TK_ADD else
    if word == "AFTER" then TK_AFTER else
    if word == "ALL" then TK_ALL else
    if word == "ALTER" then TK_ALTER else
    if word == "ANALYZE" then TK_ANALYZE else
    if word == "AND" then TK_AND else
    if word == "AS" then TK_AS else
    if word == "ASC" then TK_ASC else
    if word == "ATTACH" then TK_ATTACH else
    if word == "AUTOINCREMENT" then TK_AUTOINCR else
    TK_ID
  }

  function WordsInB(word: string): nat {
    if word == "BEFORE" then TK_BEFORE else
    if word == "BEGIN" then TK_BEGIN else
    if word == "BETWEEN" then TK_BETWEEN else
    if word == "BY" then TK_BY else
    TK_ID
  }

  function WordsInC(word: string): nat {
    if word == "CASCADE" then TK_CASCADE else
    if word == "CASE" then TK_CASE else
    if word == "CAST" then TK_CAST else
    if word == "CHECK" then TK_CHECK else
    if word == "COLLATE" then TK_COLLATE else
    if word == "COLUMN" then TK_COLUMNKW else
    if word == "COMMIT" then TK_COMMIT else
    if word == "CONFLICT" then TK_CONFLICT else
    if word == "CONSTRAINT" then TK_CONSTRAINT else
    if word == "CREATE" then TK_CREATE else
    if word == "CROSS" then TK_JOIN_KW else
    if word == "CURRENT_DATE" then TK_CTIME_KW else
    if word == "CURRENT_TIME" then TK_CTIME_KW else
    if word == "CURRENT_TIMESTAMP" then TK_CTIME_KW else
    TK_ID
  }

  function WordsInD(word: string): nat {
    if word == "DATABASE" then TK_DATABASE else
    if word == "DEFAULT" then TK_DEFAULT else
    if word == "DEFERRABLE" then TK_DEFERRABLE else
    if word == "DEFERRED" then TK_DEFERRED else
    if word == "DELETE" then TK_DELETE else
    if word == "DESC" then TK_DESC else
    if word == "DETACH" then TK_DETACH else
    if word == "DISTINCT" then TK_DISTINCT else
    if word == "DROP" then TK_DROP else
    TK_ID
  }

  function WordsInE(word: string): nat {
    if word == "EACH" then TK_EACH else
    if word == "ELSE" then TK_ELSE else
    if word == "END" then TK_END else
    if word == "ESCAPE" then TK_ESCAPE else
    if word == "EXCEPT" then TK_EXCEPT else
    if word == "EXCLUSIVE" then TK_EXCLUSIVE else
    if word == "EXISTS" then TK_EXISTS else
    if word == "EXPLAIN" then TK_EXPLAIN else
    TK_ID
  }

  function WordsInF(word: string): nat {
    if word == "FAIL" then TK_FAIL else
    if word == "FOR" then TK_FOR else
    if word == "FOREIGN" then TK_FOREIGN else
    if word == "FROM" then TK_FROM else
    if word == "FULL" then TK_JOIN_KW else
    TK_ID
  }

  function WordsInG(word: string): nat {
    if word == "GLOB" then TK_LIKE_KW else
    if word == "GROUP" then TK_GROUP else
    TK_ID
  }

  function WordsInH(word: string): nat {
    if word == "HAVING" then TK_HAVING else
    TK_ID
  }

  function WordsInI(word: string): nat {
    if word == "IF" then TK_IF else
    if word == "IGNORE" then TK_IGNORE else
    if word == "IMMEDIATE" then TK_IMMEDIATE else
    if word == "IN" then TK_IN else
    if word == "INDEX" then TK_INDEX else
    if word == "INDEXED" then TK_INDEXED else
    if word == "INITIALLY" then TK_INITIALLY else
    if word == "INNER" then TK_JOIN_KW else
    if word == "INSERT" then TK_INSERT else
    if word == "INSTEAD" then TK_INSTEAD else
    if word == "INTERSECT" then TK_INTERSECT else
    if word == "INTO" then TK_INTO else
    if word == "IS" then TK_IS else
    if word == "ISNULL" then TK_ISNULL else
    TK_ID
  }

  function WordsInJ(word: string): nat {
    if word == "JOIN" then TK_JOIN else
    TK_ID
  }

  function WordsInK(word: string): nat {
    if word == "KEY" then TK_KEY else
    TK_ID
  }

  function WordsInL(word: string): nat {
    if word == "LEFT" then TK_JOIN_KW else
    if word == "LIKE" then TK_LIKE_KW else
    if word == "LIMIT" then TK_LIMIT else
    TK_ID
  }

  function WordsInM(word: string): nat {
    if word == "MATCH" then TK_MATCH else
    TK_ID
  }

  function WordsInN(word: string): nat {
    if word == "NATURAL" then TK_JOIN_KW else
    if word == "NO" then TK_NO else
    if word == "NOT" then TK_NOT else
    if word == "NOTNULL" then TK_NOTNULL else
    if word == "NULL" then TK_NULL else
    TK_ID
  }

  function WordsInO(word: string): nat {
    if word == "OF" then TK_OF else
    if word == "OFFSET" then TK_OFFSET else
    if word == "ON" then TK_ON else
    if word == "OR" then TK_OR else
    if word == "ORDER" then TK_ORDER else
    if word == "OUTER" then TK_JOIN_KW else
    TK_ID
  }

  function WordsInP(word: string): nat {
    if word == "PLAN" then TK_PLAN else
    if word == "PRAGMA" then TK_PRAGMA else
    if word == "PRIMARY" then TK_PRIMARY else
    TK_ID
  }

  function WordsInQ(word: string): nat {
    if word == "QUERY" then TK_QUERY else
    TK_ID
  }

  function WordsInR(word: string): nat {
    if word == "RAISE" then TK_RAISE else
    if word == "RECURSIVE" then TK_RECURSIVE else
    if word == "REFERENCES" then TK_REFERENCES else
    if word == "REGEXP" then TK_LIKE_KW else
    if word == "REINDEX" then TK_REINDEX else
    if word == "RELEASE" then TK_RELEASE else
    if word == "RENAME" then TK_RENAME else
    if word == "REPLACE" then TK_REPLACE else
    if word == "RESTRICT" then TK_RESTRICT else
    if word == "RIGHT" then TK_JOIN_KW else
    if word == "ROLLBACK" then TK_ROLLBACK else
    if word == "ROW" then TK_ROW else
    TK_ID
  }

  function WordsInS(word: string): nat {
    if word == "SAVEPOINT" then TK_SAVEPOINT else
    if word == "SELECT" then TK_SELECT else
    if word == "SET" then TK_SET else
    TK_ID
  }

  function WordsInT(word: string): nat {
    if word == "TABLE" then TK_TABLE else
    if word == "TEMP" then TK_TEMP else
    if word == "TEMPORARY" then TK_TEMP else
    if word == "THEN" then TK_THEN else
    if word == "TO" then TK_TO else
    if word == "TRANSACTION" then TK_TRANSACTION else
    if word == "TRIGGER" then TK_TRIGGER else
    TK_ID
  }

  function WordsInU(word: string): nat {
    if word == "UNION" then TK_UNION else
    if word == "UNIQUE" then TK_UNIQUE else
    if word == "UPDATE" then TK_UPDATE else
    if word == "USING" then TK_USING else
    TK_ID
  }

  function WordsInV(word: string): nat {
    if word == "VACUUM" then TK_VACUUM else
    if word == "VALUES" then TK_VALUES else
    if word == "VIEW" then TK_VIEW else
    if word == "VIRTUAL" then TK_VIRTUAL else
    TK_ID
  }

  function WordsInW(word: string): nat {
    if word == "WHEN" then TK_WHEN else
    if word == "WHERE" then TK_WHERE else
    if word == "WITH" then TK_WITH else
    if word == "WITHOUT" then TK_WITHOUT else
    TK_ID
  }

  /** The token of a word in capitals: its own for most keywords, a common one for the join words, the LIKE
      operators and the current times, and TK_ID for any other word. */
  function TokenOf(word: string): nat {
    if word == "" then TK_ID
    else
      match word[0]
      case 'A' => WordsInA(word)
      case 'B' => WordsInB(word)
      case 'C' => WordsInC(word)
      case 'D' => WordsInD(word)
      case 'E' => WordsInE(word)
      case 'F' => WordsInF(word)
      case 'G' => WordsInG(word)
      case 'H' => WordsInH(word)
      case 'I' => WordsInI(word)
      case 'J' => WordsInJ(word)
      case 'K' => WordsInK(word)
      case 'L' => WordsInL(word)
      case 'M' => WordsInM(word)
      case 'N' => WordsInN(word)
      case 'O' => WordsInO(word)
      case 'P' => WordsInP(word)
      case 'Q' => WordsInQ(word)
      case 'R' => WordsInR(word)
      case 'S' => WordsInS(word)
      case 'T' => WordsInT(word)
      case 'U' => WordsInU(word)
      case 'V' => WordsInV(word)
      case 'W' => WordsInW(word)
      case _ => TK_ID
  }
}
