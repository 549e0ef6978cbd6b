/** The keywords as words, and the proof that the packed text spells them. */
module KeywordList {
  import opened KeywordTables
  import opened KeywordChains
  import opened KeywordTokens

  function SpellingRow0(i: nat): string
    requires 0 <= i < 13
  {
    match i
    case 0 => "REINDEX" case 1 => "INDEXED" case 2 => "INDEX" case 3 => "DESC" case 4 => "ESCAPE"
    case 5 => "EACH" case 6 => "CHECK" case 7 => "KEY" case 8 => "BEFORE" case 9 => "FOREIGN"
    case 10 => "FOR" case 11 => "IGNORE" case _ => "REGEXP"
  }

  function SpellingRow1(i: nat): string
    requires 13 <= i < 26
  {
    match i
    case 13 => "EXPLAIN" case 14 => "INSTEAD" case 15 => "ADD" case 16 => "DATABASE" case 17 => "AS"
    case 18 => "SELECT" case 19 => "TABLE" case 20 => "LEFT" case 21 => "THEN" case 22 => "END"
    case 23 => "DEFERRABLE" case 24 => "ELSE" case _ => "EXCEPT"
  }

  function SpellingRow2(i: nat): string
    requires 26 <= i < 39
  {
    match i
    case 26 => "TRANSACTION" case 27 => "ACTION" case 28 => "ON" case 29 => "NATURAL" case 30 => "ALTER"
    case 31 => "RAISE" case 32 => "EXCLUSIVE" case 33 => "EXISTS" case 34 => "SAVEPOINT"
    case 35 => "INTERSECT" case 36 => "TRIGGER" case 37 => "REFERENCES" case _ => "CONSTRAINT"
  }

  function SpellingRow3(i: nat): string
    requires 39 <= i < 52
  {
    match i
    case 39 => "INTO" case 40 => "OFFSET" case 41 => "OF" case 42 => "SET" case 43 => "TEMPORARY"
    case 44 => "TEMP" case 45 => "OR" case 46 => "UNIQUE" case 47 => "QUERY" case 48 => "WITHOUT"
    case 49 => "WITH" case 50 => "OUTER" case _ => "RELEASE"
  }

  function SpellingRow4(i: nat): string
    requires 52 <= i < 65
  {
    match i
    case 52 => "ATTACH" case 53 => "HAVING" case 54 => "GROUP" case 55 => "UPDATE" case 56 => "BEGIN"
    case 57 => "INNER" case 58 => "RECURSIVE" case 59 => "BETWEEN" case 60 => "NOTNULL" case 61 => "NOT"
    case 62 => "NO" case 63 => "NULL" case _ => "LIKE"
  }

  function SpellingRow5(i: nat): string
    requires 65 <= i < 78
  {
    match i
    case 65 => "CASCADE" case 66 => "ASC" case 67 => "DELETE" case 68 => "CASE" case 69 => "COLLATE"
    case 70 => "CREATE" case 71 => "CURRENT_DATE" case 72 => "DETACH" case 73 => "IMMEDIATE"
    case 74 => "JOIN" case 75 => "INSERT" case 76 => "MATCH" case _ => "PLAN"
  }

  function SpellingRow6(i: nat): string
    requires 78 <= i < 91
  {
    match i
    case 78 => "ANALYZE" case 79 => "PRAGMA" case 80 => "ABORT" case 81 => "VALUES" case 82 => "VIRTUAL"
    case 83 => "LIMIT" case 84 => "WHEN" case 85 => "WHERE" case 86 => "RENAME" case 87 => "AFTER"
    case 88 => "REPLACE" case 89 => "AND" case _ => "DEFAULT"
  }

  function SpellingRow7(i: nat): string
    requires 91 <= i < 104
  {
    match i
    case 91 => "AUTOINCREMENT" case 92 => "TO" case 93 => "IN" case 94 => "CAST" case 95 => "COLUMN"
    case 96 => "COMMIT" case 97 => "CONFLICT" case 98 => "CROSS" case 99 => "CURRENT_TIMESTAMP"
    case 100 => "CURRENT_TIME" case 101 => "PRIMARY" case 102 => "DEFERRED" case _ => "DISTINCT"
  }

  function SpellingRow8(i: nat): string
    requires 104 <= i < 117
  {
    match i
    case 104 => "IS" case 105 => "DROP" case 106 => "FAIL" case 107 => "FROM" case 108 => "FULL"
    case 109 => "GLOB" case 110 => "BY" case 111 => "IF" case 112 => "ISNULL" case 113 => "ORDER"
    case 114 => "RESTRICT" case 115 => "RIGHT" case _ => "ROLLBACK"
  }

  function SpellingRow9(i: nat): string
    requires 117 <= i < 124
  {
    match i
    case 117 => "ROW" case 118 => "UNION" case 119 => "USING" case 120 => "VACUUM" case 121 => "VIEW"
    case 122 => "INITIALLY" case _ => "ALL"
  }

  /** The keywords, in the order of the tables. */
  function Spelling(i: nat): string
    requires i < KEYWORDS
  {
    if i < 13 then SpellingRow0(i) else
    if i < 26 then SpellingRow1(i) else
    if i < 39 then SpellingRow2(i) else
    if i < 52 then SpellingRow3(i) else
    if i < 65 then SpellingRow4(i) else
    if i < 78 then SpellingRow5(i) else
    if i < 91 then SpellingRow6(i) else
    if i < 104 then SpellingRow7(i) else
    if i < 117 then SpellingRow8(i) else
    SpellingRow9(i)
  }

  /** The packed text has keyword i at its offset, letter by letter. */
  ghost predicate Spelled(i: nat)
    requires i < KEYWORDS
  {
    && |Spelling(i)| == Width(ALen(i))
    && AOffset(i) + |Spelling(i)| <= TEXT_LENGTH
    && forall j | 0 <= j < |Spelling(i)| :: ZText(AOffset(i) + j) as int == Spelling(i)[j] as int
  }

  /** The code table gives keyword i the token of its spelling. */
  predicate Coded(i: nat)
    requires i < KEYWORDS
  {
    ACode(i) == TokenOf(Spelling(i)) != TK_ID
  }

  lemma Reindex()
    ensures Spelled(0) && Coded(0)
  {
    assert AOffset(0) == 0 && ALen(0) == 7 && ACode(0) == TokenOf("REINDEX") != TK_ID;
    assert ZText(0) == 82 && ZText(1) == 69 && ZText(2) == 73 && ZText(3) == 78 && ZText(4) == 68;
    assert ZText(5) == 69 && ZText(6) == 88;
    hide ZText, AOffset, ALen, ACode, TokenOf;
    assert Spelling(0) == "REINDEX";
  }

  lemma Indexed()
    ensures Spelled(1) && Coded(1)
  {
    assert AOffset(1) == 2 && ALen(1) == 7 && ACode(1) == TokenOf("INDEXED") != TK_ID;
    assert ZText(2) == 73 && ZText(3) == 78 && ZText(4) == 68 && ZText(5) == 69 && ZText(6) == 88;
    assert ZText(7) == 69 && ZText(8) == 68;
    hide ZText, AOffset, ALen, ACode, TokenOf;
    assert Spelling(1) == "INDEXED";
  }

  lemma Index()
    ensures Spelled(2) && Coded(2)
  {
    assert AOffset(2) == 2 && ALen(2) == 5 && ACode(2) == TokenOf("INDEX") != TK_ID;
    assert ZText(2) == 73 && ZText(3) == 78 && ZText(4) == 68 && ZText(5) == 69 && ZText(6) == 88;
    hide ZText, AOffset, ALen, ACode, TokenOf;
    assert Spelling(2) == "INDEX";
  }

  lemma Desc()
    ensures Spelled(3) && Coded(3)
  {
    assert AOffset(3) == 8 && ALen(3) == 4 && ACode(3) == TokenOf("DESC") != TK_ID;
    assert ZText(8) == 68 && ZText(9) == 69 && ZText(10) == 83 && ZText(11) == 67;
    hide ZText, AOffset, ALen, ACode, TokenOf;
    assert Spelling(3) == "DESC";
  }

  lemma Escape()
    ensures Spelled(4) && Coded(4)
  {
    assert AOffset(4) == 9 && ALen(4) == 6 && ACode(4) == TokenOf("ESCAPE") != TK_ID;
    assert ZText(9) == 69 && ZText(10) == 83 && ZText(11) == 67 && ZText(12) == 65 && ZText(13) == 80;
    assert ZText(14) == 69;
    hide ZText, AOffset, ALen, ACode, TokenOf;
    assert Spelling(4) == "ESCAPE";
  }

  lemma Each()
    ensures Spelled(5) && Coded(5)
  {
    assert AOffset(5) == 14 && ALen(5) == 4 && ACode(5) == TokenOf("EACH") != TK_ID;
    assert ZText(14) == 69 && ZText(15) == 65 && ZText(16) == 67 && ZText(17) == 72;
    hide ZText, AOffset, ALen, ACode, TokenOf;
    assert Spelling(5) == "EACH";
  }

  lemma Check()
    ensures Spelled(6) && Coded(6)
  {
    assert AOffset(6) == 16 && ALen(6) == 5 && ACode(6) == TokenOf("CHECK") != TK_ID;
    assert ZText(16) == 67 && ZText(17) == 72 && ZText(18) == 69 && ZText(19) == 67 && ZText(20) == 75;
    hide ZText, AOffset, ALen, ACode, TokenOf;
    assert Spelling(6) == "CHECK";
  }

  lemma Key()
    ensures Spelled(7) && Coded(7)
  {
    assert AOffset(7) == 20 && ALen(7) == 3 && ACode(7) == TokenOf("KEY") != TK_ID;
    assert ZText(20) == 75 && ZText(21) == 69 && ZText(22) == 89;
    hide ZText, AOffset, ALen, ACode, TokenOf;
    assert Spelling(7) == "KEY";
  }

  lemma Before()
    ensures Spelled(8) && Coded(8)
  {
    assert AOffset(8) == 23 && ALen(8) == 6 && ACode(8) == TokenOf("BEFORE") != TK_ID;
    assert ZText(23) == 66 && ZText(24) == 69 && ZText(25) == 70 && ZText(26) == 79 && ZText(27) == 82;
    assert ZText(28) == 69;
    hide ZText, AOffset, ALen, ACode, TokenOf;
    assert Spelling(8) == "BEFORE";
  }

  lemma Foreign()
    ensures Spelled(9) && Coded(9)
  {
    assert AOffset(9) == 25 && ALen(9) == 7 && ACode(9) == TokenOf("FOREIGN") != TK_ID;
    assert ZText(25) == 70 && ZText(26) == 79 && ZText(27) == 82 && ZText(28) == 69 && ZText(29) == 73;
    assert ZText(30) == 71 && ZText(31) == 78;
    hide ZText, AOffset, ALen, ACode, TokenOf;
    assert Spelling(9) == "FOREIGN";
  }

  lemma For()
    ensures Spelled(10) && Coded(10)
  {
    assert AOffset(10) == 25 && ALen(10) == 3 && ACode(10) == TokenOf("FOR") != TK_ID;
    assert ZText(25) == 70 && ZText(26) == 79 && ZText(27) == 82;
    hide ZText, AOffset, ALen, ACode, TokenOf;
    assert Spelling(10) == "FOR";
  }

  lemma Ignore()
    ensures Spelled(11) && Coded(11)
  {
    assert AOffset(11) == 29 && ALen(11) == 6 && ACode(11) == TokenOf("IGNORE") != TK_ID;
    assert ZText(29) == 73 && ZText(30) == 71 && ZText(31) == 78 && ZText(32) == 79 && ZText(33) == 82;
    assert ZText(34) == 69;
    hide ZText, AOffset, ALen, ACode, TokenOf;
    assert Spelling(11) == "IGNORE";
  }

  lemma Regexp()
    ensures Spelled(12) && Coded(12)
  {
    assert AOffset(12) == 33 && ALen(12) == 6 && ACode(12) == TokenOf("REGEXP") != TK_ID;
    assert ZText(33) == 82 && ZText(34) == 69 && ZText(35) == 71 && ZText(36) == 69 && ZText(37) == 88;
    assert ZText(38) == 80;
    hide ZText, AOffset, ALen, ACode, TokenOf;
    assert Spelling(12) == "REGEXP";
  }

  lemma Explain()
    ensures Spelled(13) && Coded(13)
  {
    assert AOffset(13) == 36 && ALen(13) == 7 && ACode(13) == TokenOf("EXPLAIN") != TK_ID;
    assert ZText(36) == 69 && ZText(37) == 88 && ZText(38) == 80 && ZText(39) == 76 && ZText(40) == 65;
    assert ZText(41) == 73 && ZText(42) == 78;
    hide ZText, AOffset, ALen, ACode, TokenOf;
    assert Spelling(13) == "EXPLAIN";
  }

  lemma Instead()
    ensures Spelled(14) && Coded(14)
  {
    assert AOffset(14) == 41 && ALen(14) == 7 && ACode(14) == TokenOf("INSTEAD") != TK_ID;
    assert ZText(41) == 73 && ZText(42) == 78 && ZText(43) == 83 && ZText(44) == 84 && ZText(45) == 69;
    assert ZText(46) == 65 && ZText(47) == 68;
    hide ZText, AOffset, ALen, ACode, TokenOf;
    assert Spelling(14) == "INSTEAD";
  }

  lemma Add()
    ensures Spelled(15) && Coded(15)
  {
    assert AOffset(15) == 46 && ALen(15) == 3 && ACode(15) == TokenOf("ADD") != TK_ID;
    assert ZText(46) == 65 && ZText(47) == 68 && ZText(48) == 68;
    hide ZText, AOffset, ALen, ACode, TokenOf;
    assert Spelling(15) == "ADD";
  }

  lemma DatabaseStarts()
    ensures ZText(48) == 68 && ZText(49) == 65 && ZText(50) == 84 && ZText(51) == 65 && ZText(52) == 66
  {
  }

  lemma Database()
    ensures Spelled(16) && Coded(16)
  {
    assert AOffset(16) == 48 && ALen(16) == 8 && ACode(16) == TokenOf("DATABASE") != TK_ID;
    DatabaseStarts();
    assert ZText(53) == 65 && ZText(54) == 83 && ZText(55) == 69;
    hide ZText, AOffset, ALen, ACode, TokenOf;
    assert Spelling(16) == "DATABASE";
  }

  lemma As()
    ensures Spelled(17) && Coded(17)
  {
    assert AOffset(17) == 53 && ALen(17) == 2 && ACode(17) == TokenOf("AS") != TK_ID;
    assert ZText(53) == 65 && ZText(54) == 83;
    hide ZText, AOffset, ALen, ACode, TokenOf;
    assert Spelling(17) == "AS";
  }

  lemma Select()
    ensures Spelled(18) && Coded(18)
  {
    assert AOffset(18) == 54 && ALen(18) == 6 && ACode(18) == TokenOf("SELECT") != TK_ID;
    assert ZText(54) == 83 && ZText(55) == 69 && ZText(56) == 76 && ZText(57) == 69 && ZText(58) == 67;
    assert ZText(59) == 84;
    hide ZText, AOffset, ALen, ACode, TokenOf;
    assert Spelling(18) == "SELECT";
  }

  lemma Table()
    ensures Spelled(19) && Coded(19)
  {
    assert AOffset(19) == 59 && ALen(19) == 5 && ACode(19) == TokenOf("TABLE") != TK_ID;
    assert ZText(59) == 84 && ZText(60) == 65 && ZText(61) == 66 && ZText(62) == 76 && ZText(63) == 69;
    hide ZText, AOffset, ALen, ACode, TokenOf;
    assert Spelling(19) == "TABLE";
  }

  lemma Left()
    ensures Spelled(20) && Coded(20)
  {
    assert AOffset(20) == 62 && ALen(20) == 4 && ACode(20) == TokenOf("LEFT") != TK_ID;
    assert ZText(62) == 76 && ZText(63) == 69 && ZText(64) == 70 && ZText(65) == 84;
    hide ZText, AOffset, ALen, ACode, TokenOf;
    assert Spelling(20) == "LEFT";
  }

  lemma Then()
    ensures Spelled(21) && Coded(21)
  {
    assert AOffset(21) == 65 && ALen(21) == 4 && ACode(21) == TokenOf("THEN") != TK_ID;
    assert ZText(65) == 84 && ZText(66) == 72 && ZText(67) == 69 && ZText(68) == 78;
    hide ZText, AOffset, ALen, ACode, TokenOf;
    assert Spelling(21) == "THEN";
  }

  lemma End()
    ensures Spelled(22) && Coded(22)
  {
    assert AOffset(22) == 67 && ALen(22) == 3 && ACode(22) == TokenOf("END") != TK_ID;
    assert ZText(67) == 69 && ZText(68) == 78 && ZText(69) == 68;
    hide ZText, AOffset, ALen, ACode, TokenOf;
    assert Spelling(22) == "END";
  }

  lemma DeferrableStarts()
    ensures ZText(69) == 68 && ZText(70) == 69 && ZText(71) == 70 && ZText(72) == 69 && ZText(73) == 82
  {
  }

  lemma Deferrable()
    ensures Spelled(23) && Coded(23)
  {
    assert AOffset(23) == 69 && ALen(23) == 10 && ACode(23) == TokenOf("DEFERRABLE") != TK_ID;
    DeferrableStarts();
    assert ZText(74) == 82 && ZText(75) == 65 && ZText(76) == 66 && ZText(77) == 76 && ZText(78) == 69;
    hide ZText, AOffset, ALen, ACode, TokenOf;
    assert Spelling(23) == "DEFERRABLE";
  }

  lemma Else()
    ensures Spelled(24) && Coded(24)
  {
    assert AOffset(24) == 78 && ALen(24) == 4 && ACode(24) == TokenOf("ELSE") != TK_ID;
    assert ZText(78) == 69 && ZText(79) == 76 && ZText(80) == 83 && ZText(81) == 69;
    hide ZText, AOffset, ALen, ACode, TokenOf;
    assert Spelling(24) == "ELSE";
  }

  lemma Except()
    ensures Spelled(25) && Coded(25)
  {
    assert AOffset(25) == 81 && ALen(25) == 6 && ACode(25) == TokenOf("EXCEPT") != TK_ID;
    assert ZText(81) == 69 && ZText(82) == 88 && ZText(83) == 67 && ZText(84) == 69 && ZText(85) == 80;
    assert ZText(86) == 84;
    hide ZText, AOffset, ALen, ACode, TokenOf;
    assert Spelling(25) == "EXCEPT";
  }

  lemma TransactionStarts()
    ensures ZText(86) == 84 && ZText(87) == 82 && ZText(88) == 65 && ZText(89) == 78 && ZText(90) == 83
    ensures ZText(91) == 65 && ZText(92) == 67 && ZText(93) == 84 && ZText(94) == 73 && ZText(95) == 79
  {
  }

  lemma Transaction()
    ensures Spelled(26) && Coded(26)
  {
    assert AOffset(26) == 86 && ALen(26) == 11 && ACode(26) == TokenOf("TRANSACTION") != TK_ID;
    TransactionStarts();
    assert ZText(96) == 78;
    hide ZText, AOffset, ALen, ACode, TokenOf;
    assert Spelling(26) == "TRANSACTION";
  }

  lemma Action()
    ensures Spelled(27) && Coded(27)
  {
    assert AOffset(27) == 91 && ALen(27) == 6 && ACode(27) == TokenOf("ACTION") != TK_ID;
    assert ZText(91) == 65 && ZText(92) == 67 && ZText(93) == 84 && ZText(94) == 73 && ZText(95) == 79;
    assert ZText(96) == 78;
    hide ZText, AOffset, ALen, ACode, TokenOf;
    assert Spelling(27) == "ACTION";
  }

  lemma On()
    ensures Spelled(28) && Coded(28)
  {
    assert AOffset(28) == 95 && ALen(28) == 2 && ACode(28) == TokenOf("ON") != TK_ID;
    assert ZText(95) == 79 && ZText(96) == 78;
    hide ZText, AOffset, ALen, ACode, TokenOf;
    assert Spelling(28) == "ON";
  }

  lemma Natural()
    ensures Spelled(29) && Coded(29)
  {
    assert AOffset(29) == 96 && ALen(29) == 7 && ACode(29) == TokenOf("NATURAL") != TK_ID;
    assert ZText(96) == 78 && ZText(97) == 65 && ZText(98) == 84 && ZText(99) == 85 && ZText(100) == 82;
    assert ZText(101) == 65 && ZText(102) == 76;
    hide ZText, AOffset, ALen, ACode, TokenOf;
    assert Spelling(29) == "NATURAL";
  }

  lemma Alter()
    ensures Spelled(30) && Coded(30)
  {
    assert AOffset(30) == 101 && ALen(30) == 5 && ACode(30) == TokenOf("ALTER") != TK_ID;
    assert ZText(101) == 65 && ZText(102) == 76 && ZText(103) == 84 && ZText(104) == 69 && ZText(105) == 82;
    hide ZText, AOffset, ALen, ACode, TokenOf;
    assert Spelling(30) == "ALTER";
  }

  lemma Raise()
    ensures Spelled(31) && Coded(31)
  {
    assert AOffset(31) == 105 && ALen(31) == 5 && ACode(31) == TokenOf("RAISE") != TK_ID;
    assert ZText(105) == 82 && ZText(106) == 65 && ZText(107) == 73 && ZText(108) == 83 && ZText(109) == 69;
    hide ZText, AOffset, ALen, ACode, TokenOf;
    assert Spelling(31) == "RAISE";
  }

  lemma ExclusiveStarts()
    ensures ZText(109) == 69 && ZText(110) == 88 && ZText(111) == 67 && ZText(112) == 76 && ZText(113) == 85
  {
  }

  lemma Exclusive()
    ensures Spelled(32) && Coded(32)
  {
    assert AOffset(32) == 109 && ALen(32) == 9 && ACode(32) == TokenOf("EXCLUSIVE") != TK_ID;
    ExclusiveStarts();
    assert ZText(114) == 83 && ZText(115) == 73 && ZText(116) == 86 && ZText(117) == 69;
    hide ZText, AOffset, ALen, ACode, TokenOf;
    assert Spelling(32) == "EXCLUSIVE";
  }

  lemma Exists()
    ensures Spelled(33) && Coded(33)
  {
    assert AOffset(33) == 117 && ALen(33) == 6 && ACode(33) == TokenOf("EXISTS") != TK_ID;
    assert ZText(117) == 69 && ZText(118) == 88 && ZText(119) == 73 && ZText(120) == 83 && ZText(121) == 84;
    assert ZText(122) == 83;
    hide ZText, AOffset, ALen, ACode, TokenOf;
    assert Spelling(33) == "EXISTS";
  }

  lemma SavepointStarts()
    ensures ZText(122) == 83 && ZText(123) == 65 && ZText(124) == 86 && ZText(125) == 69 && ZText(126) == 80
  {
  }

  lemma Savepoint()
    ensures Spelled(34) && Coded(34)
  {
    assert AOffset(34) == 122 && ALen(34) == 9 && ACode(34) == TokenOf("SAVEPOINT") != TK_ID;
    SavepointStarts();
    assert ZText(127) == 79 && ZText(128) == 73 && ZText(129) == 78 && ZText(130) == 84;
    hide ZText, AOffset, ALen, ACode, TokenOf;
    assert Spelling(34) == "SAVEPOINT";
  }

  lemma IntersectStarts()
    ensures ZText(128) == 73 && ZText(129) == 78 && ZText(130) == 84 && ZText(131) == 69 && ZText(132) == 82
  {
  }

  lemma Intersect()
    ensures Spelled(35) && Coded(35)
  {
    assert AOffset(35) == 128 && ALen(35) == 9 && ACode(35) == TokenOf("INTERSECT") != TK_ID;
    IntersectStarts();
    assert ZText(133) == 83 && ZText(134) == 69 && ZText(135) == 67 && ZText(136) == 84;
    hide ZText, AOffset, ALen, ACode, TokenOf;
    assert Spelling(35) == "INTERSECT";
  }

  lemma Trigger()
    ensures Spelled(36) && Coded(36)
  {
    assert AOffset(36) == 136 && ALen(36) == 7 && ACode(36) == TokenOf("TRIGGER") != TK_ID;
    assert ZText(136) == 84 && ZText(137) == 82 && ZText(138) == 73 && ZText(139) == 71 && ZText(140) == 71;
    assert ZText(141) == 69 && ZText(142) == 82;
    hide ZText, AOffset, ALen, ACode, TokenOf;
    assert Spelling(36) == "TRIGGER";
  }

  lemma ReferencesStarts()
    ensures ZText(142) == 82 && ZText(143) == 69 && ZText(144) == 70 && ZText(145) == 69 && ZText(146) == 82
  {
  }

  lemma References()
    ensures Spelled(37) && Coded(37)
  {
    assert AOffset(37) == 142 && ALen(37) == 10 && ACode(37) == TokenOf("REFERENCES") != TK_ID;
    ReferencesStarts();
    assert ZText(147) == 69 && ZText(148) == 78 && ZText(149) == 67 && ZText(150) == 69 && ZText(151) == 83;
    hide ZText, AOffset, ALen, ACode, TokenOf;
    assert Spelling(37) == "REFERENCES";
  }

  lemma ConstraintStarts()
    ensures ZText(152) == 67 && ZText(153) == 79 && ZText(154) == 78 && ZText(155) == 83 && ZText(156) == 84
  {
  }

  lemma Constraint()
    ensures Spelled(38) && Coded(38)
  {
    assert AOffset(38) == 152 && ALen(38) == 10 && ACode(38) == TokenOf("CONSTRAINT") != TK_ID;
    ConstraintStarts();
    assert ZText(157) == 82 && ZText(158) == 65 && ZText(159) == 73 && ZText(160) == 78 && ZText(161) == 84;
    hide ZText, AOffset, ALen, ACode, TokenOf;
    assert Spelling(38) == "CONSTRAINT";
  }

  lemma Into()
    ensures Spelled(39) && Coded(39)
  {
    assert AOffset(39) == 159 && ALen(39) == 4 && ACode(39) == TokenOf("INTO") != TK_ID;
    assert ZText(159) == 73 && ZText(160) == 78 && ZText(161) == 84 && ZText(162) == 79;
    hide ZText, AOffset, ALen, ACode, TokenOf;
    assert Spelling(39) == "INTO";
  }

  lemma Offset()
    ensures Spelled(40) && Coded(40)
  {
    assert AOffset(40) == 162 && ALen(40) == 6 && ACode(40) == TokenOf("OFFSET") != TK_ID;
    assert ZText(162) == 79 && ZText(163) == 70 && ZText(164) == 70 && ZText(165) == 83 && ZText(166) == 69;
    assert ZText(167) == 84;
    hide ZText, AOffset, ALen, ACode, TokenOf;
    assert Spelling(40) == "OFFSET";
  }

  lemma Of()
    ensures Spelled(41) && Coded(41)
  {
    assert AOffset(41) == 162 && ALen(41) == 2 && ACode(41) == TokenOf("OF") != TK_ID;
    assert ZText(162) == 79 && ZText(163) == 70;
    hide ZText, AOffset, ALen, ACode, TokenOf;
    assert Spelling(41) == "OF";
  }

  lemma Set()
    ensures Spelled(42) && Coded(42)
  {
    assert AOffset(42) == 165 && ALen(42) == 3 && ACode(42) == TokenOf("SET") != TK_ID;
    assert ZText(165) == 83 && ZText(166) == 69 && ZText(167) == 84;
    hide ZText, AOffset, ALen, ACode, TokenOf;
    assert Spelling(42) == "SET";
  }

  lemma TemporaryStarts()
    ensures ZText(167) == 84 && ZText(168) == 69 && ZText(169) == 77 && ZText(170) == 80 && ZText(171) == 79
  {
  }

  lemma Temporary()
    ensures Spelled(43) && Coded(43)
  {
    assert AOffset(43) == 167 && ALen(43) == 9 && ACode(43) == TokenOf("TEMPORARY") != TK_ID;
    TemporaryStarts();
    assert ZText(172) == 82 && ZText(173) == 65 && ZText(174) == 82 && ZText(175) == 89;
    hide ZText, AOffset, ALen, ACode, TokenOf;
    assert Spelling(43) == "TEMPORARY";
  }

  lemma Temp()
    ensures Spelled(44) && Coded(44)
  {
    assert AOffset(44) == 167 && ALen(44) == 4 && ACode(44) == TokenOf("TEMP") != TK_ID;
    assert ZText(167) == 84 && ZText(168) == 69 && ZText(169) == 77 && ZText(170) == 80;
    hide ZText, AOffset, ALen, ACode, TokenOf;
    assert Spelling(44) == "TEMP";
  }

  lemma Or()
    ensures Spelled(45) && Coded(45)
  {
    assert AOffset(45) == 171 && ALen(45) == 2 && ACode(45) == TokenOf("OR") != TK_ID;
    assert ZText(171) == 79 && ZText(172) == 82;
    hide ZText, AOffset, ALen, ACode, TokenOf;
    assert Spelling(45) == "OR";
  }

  lemma Unique()
    ensures Spelled(46) && Coded(46)
  {
    assert AOffset(46) == 176 && ALen(46) == 6 && ACode(46) == TokenOf("UNIQUE") != TK_ID;
    assert ZText(176) == 85 && ZText(177) == 78 && ZText(178) == 73 && ZText(179) == 81 && ZText(180) == 85;
    assert ZText(181) == 69;
    hide ZText, AOffset, ALen, ACode, TokenOf;
    assert Spelling(46) == "UNIQUE";
  }

  lemma Query()
    ensures Spelled(47) && Coded(47)
  {
    assert AOffset(47) == 179 && ALen(47) == 5 && ACode(47) == TokenOf("QUERY") != TK_ID;
    assert ZText(179) == 81 && ZText(180) == 85 && ZText(181) == 69 && ZText(182) == 82 && ZText(183) == 89;
    hide ZText, AOffset, ALen, ACode, TokenOf;
    assert Spelling(47) == "QUERY";
  }

  lemma Without()
    ensures Spelled(48) && Coded(48)
  {
    assert AOffset(48) == 184 && ALen(48) == 7 && ACode(48) == TokenOf("WITHOUT") != TK_ID;
    assert ZText(184) == 87 && ZText(185) == 73 && ZText(186) == 84 && ZText(187) == 72 && ZText(188) == 79;
    assert ZText(189) == 85 && ZText(190) == 84;
    hide ZText, AOffset, ALen, ACode, TokenOf;
    assert Spelling(48) == "WITHOUT";
  }

  lemma With()
    ensures Spelled(49) && Coded(49)
  {
    assert AOffset(49) == 184 && ALen(49) == 4 && ACode(49) == TokenOf("WITH") != TK_ID;
    assert ZText(184) == 87 && ZText(185) == 73 && ZText(186) == 84 && ZText(187) == 72;
    hide ZText, AOffset, ALen, ACode, TokenOf;
    assert Spelling(49) == "WITH";
  }

  lemma Outer()
    ensures Spelled(50) && Coded(50)
  {
    assert AOffset(50) == 188 && ALen(50) == 5 && ACode(50) == TokenOf("OUTER") != TK_ID;
    assert ZText(188) == 79 && ZText(189) == 85 && ZText(190) == 84 && ZText(191) == 69 && ZText(192) == 82;
    hide ZText, AOffset, ALen, ACode, TokenOf;
    assert Spelling(50) == "OUTER";
  }

  lemma Release()
    ensures Spelled(51) && Coded(51)
  {
    assert AOffset(51) == 192 && ALen(51) == 7 && ACode(51) == TokenOf("RELEASE") != TK_ID;
    assert ZText(192) == 82 && ZText(193) == 69 && ZText(194) == 76 && ZText(195) == 69 && ZText(196) == 65;
    assert ZText(197) == 83 && ZText(198) == 69;
    hide ZText, AOffset, ALen, ACode, TokenOf;
    assert Spelling(51) == "RELEASE";
  }

  lemma Attach()
    ensures Spelled(52) && Coded(52)
  {
    assert AOffset(52) == 199 && ALen(52) == 6 && ACode(52) == TokenOf("ATTACH") != TK_ID;
    assert ZText(199) == 65 && ZText(200) == 84 && ZText(201) == 84 && ZText(202) == 65 && ZText(203) == 67;
    assert ZText(204) == 72;
    hide ZText, AOffset, ALen, ACode, TokenOf;
    assert Spelling(52) == "ATTACH";
  }

  lemma Having()
    ensures Spelled(53) && Coded(53)
  {
    assert AOffset(53) == 204 && ALen(53) == 6 && ACode(53) == TokenOf("HAVING") != TK_ID;
    assert ZText(204) == 72 && ZText(205) == 65 && ZText(206) == 86 && ZText(207) == 73 && ZText(208) == 78;
    assert ZText(209) == 71;
    hide ZText, AOffset, ALen, ACode, TokenOf;
    assert Spelling(53) == "HAVING";
  }

  lemma Group()
    ensures Spelled(54) && Coded(54)
  {
    assert AOffset(54) == 209 && ALen(54) == 5 && ACode(54) == TokenOf("GROUP") != TK_ID;
    assert ZText(209) == 71 && ZText(210) == 82 && ZText(211) == 79 && ZText(212) == 85 && ZText(213) == 80;
    hide ZText, AOffset, ALen, ACode, TokenOf;
    assert Spelling(54) == "GROUP";
  }

  lemma Update()
    ensures Spelled(55) && Coded(55)
  {
    assert AOffset(55) == 212 && ALen(55) == 6 && ACode(55) == TokenOf("UPDATE") != TK_ID;
    assert ZText(212) == 85 && ZText(213) == 80 && ZText(214) == 68 && ZText(215) == 65 && ZText(216) == 84;
    assert ZText(217) == 69;
    hide ZText, AOffset, ALen, ACode, TokenOf;
    assert Spelling(55) == "UPDATE";
  }

  lemma Begin()
    ensures Spelled(56) && Coded(56)
  {
    assert AOffset(56) == 218 && ALen(56) == 5 && ACode(56) == TokenOf("BEGIN") != TK_ID;
    assert ZText(218) == 66 && ZText(219) == 69 && ZText(220) == 71 && ZText(221) == 73 && ZText(222) == 78;
    hide ZText, AOffset, ALen, ACode, TokenOf;
    assert Spelling(56) == "BEGIN";
  }

  lemma Inner()
    ensures Spelled(57) && Coded(57)
  {
    assert AOffset(57) == 221 && ALen(57) == 5 && ACode(57) == TokenOf("INNER") != TK_ID;
    assert ZText(221) == 73 && ZText(222) == 78 && ZText(223) == 78 && ZText(224) == 69 && ZText(225) == 82;
    hide ZText, AOffset, ALen, ACode, TokenOf;
    assert Spelling(57) == "INNER";
  }

  lemma RecursiveStarts()
    ensures ZText(225) == 82 && ZText(226) == 69 && ZText(227) == 67 && ZText(228) == 85 && ZText(229) == 82
  {
  }

  lemma Recursive()
    ensures Spelled(58) && Coded(58)
  {
    assert AOffset(58) == 225 && ALen(58) == 9 && ACode(58) == TokenOf("RECURSIVE") != TK_ID;
    RecursiveStarts();
    assert ZText(230) == 83 && ZText(231) == 73 && ZText(232) == 86 && ZText(233) == 69;
    hide ZText, AOffset, ALen, ACode, TokenOf;
    assert Spelling(58) == "RECURSIVE";
  }

  lemma Between()
    ensures Spelled(59) && Coded(59)
  {
    assert AOffset(59) == 234 && ALen(59) == 7 && ACode(59) == TokenOf("BETWEEN") != TK_ID;
    assert ZText(234) == 66 && ZText(235) == 69 && ZText(236) == 84 && ZText(237) == 87 && ZText(238) == 69;
    assert ZText(239) == 69 && ZText(240) == 78;
    hide ZText, AOffset, ALen, ACode, TokenOf;
    assert Spelling(59) == "BETWEEN";
  }

  lemma Notnull()
    ensures Spelled(60) && Coded(60)
  {
    assert AOffset(60) == 240 && ALen(60) == 7 && ACode(60) == TokenOf("NOTNULL") != TK_ID;
    assert ZText(240) == 78 && ZText(241) == 79 && ZText(242) == 84 && ZText(243) == 78 && ZText(244) == 85;
    assert ZText(245) == 76 && ZText(246) == 76;
    hide ZText, AOffset, ALen, ACode, TokenOf;
    assert Spelling(60) == "NOTNULL";
  }

  lemma Not()
    ensures Spelled(61) && Coded(61)
  {
    assert AOffset(61) == 240 && ALen(61) == 3 && ACode(61) == TokenOf("NOT") != TK_ID;
    assert ZText(240) == 78 && ZText(241) == 79 && ZText(242) == 84;
    hide ZText, AOffset, ALen, ACode, TokenOf;
    assert Spelling(61) == "NOT";
  }

  lemma No()
    ensures Spelled(62) && Coded(62)
  {
    assert AOffset(62) == 240 && ALen(62) == 2 && ACode(62) == TokenOf("NO") != TK_ID;
    assert ZText(240) == 78 && ZText(241) == 79;
    hide ZText, AOffset, ALen, ACode, TokenOf;
    assert Spelling(62) == "NO";
  }

  lemma Null()
    ensures Spelled(63) && Coded(63)
  {
    assert AOffset(63) == 243 && ALen(63) == 4 && ACode(63) == TokenOf("NULL") != TK_ID;
    assert ZText(243) == 78 && ZText(244) == 85 && ZText(245) == 76 && ZText(246) == 76;
    hide ZText, AOffset, ALen, ACode, TokenOf;
    assert Spelling(63) == "NULL";
  }

  lemma Like()
    ensures Spelled(64) && Coded(64)
  {
    assert AOffset(64) == 246 && ALen(64) == 4 && ACode(64) == TokenOf("LIKE") != TK_ID;
    assert ZText(246) == 76 && ZText(247) == 73 && ZText(248) == 75 && ZText(249) == 69;
    hide ZText, AOffset, ALen, ACode, TokenOf;
    assert Spelling(64) == "LIKE";
  }

  lemma Cascade()
    ensures Spelled(65) && Coded(65)
  {
    assert AOffset(65) == 250 && ALen(65) == 7 && ACode(65) == TokenOf("CASCADE") != TK_ID;
    assert ZText(250) == 67 && ZText(251) == 65 && ZText(252) == 83 && ZText(253) == 67 && ZText(254) == 65;
    assert ZText(255) == 68 && ZText(256) == 69;
    hide ZText, AOffset, ALen, ACode, TokenOf;
    assert Spelling(65) == "CASCADE";
  }

  lemma Asc()
    ensures Spelled(66) && Coded(66)
  {
    assert AOffset(66) == 251 && ALen(66) == 3 && ACode(66) == TokenOf("ASC") != TK_ID;
    assert ZText(251) == 65 && ZText(252) == 83 && ZText(253) == 67;
    hide ZText, AOffset, ALen, ACode, TokenOf;
    assert Spelling(66) == "ASC";
  }

  lemma Delete()
    ensures Spelled(67) && Coded(67)
  {
    assert AOffset(67) == 255 && ALen(67) == 6 && ACode(67) == TokenOf("DELETE") != TK_ID;
    assert ZText(255) == 68 && ZText(256) == 69 && ZText(257) == 76 && ZText(258) == 69 && ZText(259) == 84;
    assert ZText(260) == 69;
    hide ZText, AOffset, ALen, ACode, TokenOf;
    assert Spelling(67) == "DELETE";
  }

  lemma Case()
    ensures Spelled(68) && Coded(68)
  {
    assert AOffset(68) == 261 && ALen(68) == 4 && ACode(68) == TokenOf("CASE") != TK_ID;
    assert ZText(261) == 67 && ZText(262) == 65 && ZText(263) == 83 && ZText(264) == 69;
    hide ZText, AOffset, ALen, ACode, TokenOf;
    assert Spelling(68) == "CASE";
  }

  lemma Collate()
    ensures Spelled(69) && Coded(69)
  {
    assert AOffset(69) == 265 && ALen(69) == 7 && ACode(69) == TokenOf("COLLATE") != TK_ID;
    assert ZText(265) == 67 && ZText(266) == 79 && ZText(267) == 76 && ZText(268) == 76 && ZText(269) == 65;
    assert ZText(270) == 84 && ZText(271) == 69;
    hide ZText, AOffset, ALen, ACode, TokenOf;
    assert Spelling(69) == "COLLATE";
  }

  lemma Create()
    ensures Spelled(70) && Coded(70)
  {
    assert AOffset(70) == 272 && ALen(70) == 6 && ACode(70) == TokenOf("CREATE") != TK_ID;
    assert ZText(272) == 67 && ZText(273) == 82 && ZText(274) == 69 && ZText(275) == 65 && ZText(276) == 84;
    assert ZText(277) == 69;
    hide ZText, AOffset, ALen, ACode, TokenOf;
    assert Spelling(70) == "CREATE";
  }

  lemma CurrentDateStarts()
    ensures ZText(278) == 67 && ZText(279) == 85 && ZText(280) == 82 && ZText(281) == 82 && ZText(282) == 69
    ensures ZText(283) == 78 && ZText(284) == 84 && ZText(285) == 95 && ZText(286) == 68 && ZText(287) == 65
  {
  }

  lemma CurrentDate()
    ensures Spelled(71) && Coded(71)
  {
    assert AOffset(71) == 278 && ALen(71) == 12 && ACode(71) == TokenOf("CURRENT_DATE") != TK_ID;
    CurrentDateStarts();
    assert ZText(288) == 84 && ZText(289) == 69;
    hide ZText, AOffset, ALen, ACode, TokenOf;
    assert Spelling(71) == "CURRENT_DATE";
  }

  lemma Detach()
    ensures Spelled(72) && Coded(72)
  {
    assert AOffset(72) == 290 && ALen(72) == 6 && ACode(72) == TokenOf("DETACH") != TK_ID;
    assert ZText(290) == 68 && ZText(291) == 69 && ZText(292) == 84 && ZText(293) == 65 && ZText(294) == 67;
    assert ZText(295) == 72;
    hide ZText, AOffset, ALen, ACode, TokenOf;
    assert Spelling(72) == "DETACH";
  }

  lemma ImmediateStarts()
    ensures ZText(296) == 73 && ZText(297) == 77 && ZText(298) == 77 && ZText(299) == 69 && ZText(300) == 68
  {
  }

  lemma Immediate()
    ensures Spelled(73) && Coded(73)
  {
    assert AOffset(73) == 296 && ALen(73) == 9 && ACode(73) == TokenOf("IMMEDIATE") != TK_ID;
    ImmediateStarts();
    assert ZText(301) == 73 && ZText(302) == 65 && ZText(303) == 84 && ZText(304) == 69;
    hide ZText, AOffset, ALen, ACode, TokenOf;
    assert Spelling(73) == "IMMEDIATE";
  }

  lemma Join()
    ensures Spelled(74) && Coded(74)
  {
    assert AOffset(74) == 305 && ALen(74) == 4 && ACode(74) == TokenOf("JOIN") != TK_ID;
    assert ZText(305) == 74 && ZText(306) == 79 && ZText(307) == 73 && ZText(308) == 78;
    hide ZText, AOffset, ALen, ACode, TokenOf;
    assert Spelling(74) == "JOIN";
  }

  lemma Insert()
    ensures Spelled(75) && Coded(75)
  {
    assert AOffset(75) == 307 && ALen(75) == 6 && ACode(75) == TokenOf("INSERT") != TK_ID;
    assert ZText(307) == 73 && ZText(308) == 78 && ZText(309) == 83 && ZText(310) == 69 && ZText(311) == 82;
    assert ZText(312) == 84;
    hide ZText, AOffset, ALen, ACode, TokenOf;
    assert Spelling(75) == "INSERT";
  }

  lemma Match()
    ensures Spelled(76) && Coded(76)
  {
    assert AOffset(76) == 313 && ALen(76) == 5 && ACode(76) == TokenOf("MATCH") != TK_ID;
    assert ZText(313) == 77 && ZText(314) == 65 && ZText(315) == 84 && ZText(316) == 67 && ZText(317) == 72;
    hide ZText, AOffset, ALen, ACode, TokenOf;
    assert Spelling(76) == "MATCH";
  }

  lemma Plan()
    ensures Spelled(77) && Coded(77)
  {
    assert AOffset(77) == 318 && ALen(77) == 4 && ACode(77) == TokenOf("PLAN") != TK_ID;
    assert ZText(318) == 80 && ZText(319) == 76 && ZText(320) == 65 && ZText(321) == 78;
    hide ZText, AOffset, ALen, ACode, TokenOf;
    assert Spelling(77) == "PLAN";
  }

  lemma Analyze()
    ensures Spelled(78) && Coded(78)
  {
    assert AOffset(78) == 320 && ALen(78) == 7 && ACode(78) == TokenOf("ANALYZE") != TK_ID;
    assert ZText(320) == 65 && ZText(321) == 78 && ZText(322) == 65 && ZText(323) == 76 && ZText(324) == 89;
    assert ZText(325) == 90 && ZText(326) == 69;
    hide ZText, AOffset, ALen, ACode, TokenOf;
    assert Spelling(78) == "ANALYZE";
  }

  lemma Pragma()
    ensures Spelled(79) && Coded(79)
  {
    assert AOffset(79) == 327 && ALen(79) == 6 && ACode(79) == TokenOf("PRAGMA") != TK_ID;
    assert ZText(327) == 80 && ZText(328) == 82 && ZText(329) == 65 && ZText(330) == 71 && ZText(331) == 77;
    assert ZText(332) == 65;
    hide ZText, AOffset, ALen, ACode, TokenOf;
    assert Spelling(79) == "PRAGMA";
  }

  lemma Abort()
    ensures Spelled(80) && Coded(80)
  {
    assert AOffset(80) == 332 && ALen(80) == 5 && ACode(80) == TokenOf("ABORT") != TK_ID;
    assert ZText(332) == 65 && ZText(333) == 66 && ZText(334) == 79 && ZText(335) == 82 && ZText(336) == 84;
    hide ZText, AOffset, ALen, ACode, TokenOf;
    assert Spelling(80) == "ABORT";
  }

  lemma Values()
    ensures Spelled(81) && Coded(81)
  {
    assert AOffset(81) == 337 && ALen(81) == 6 && ACode(81) == TokenOf("VALUES") != TK_ID;
    assert ZText(337) == 86 && ZText(338) == 65 && ZText(339) == 76 && ZText(340) == 85 && ZText(341) == 69;
    assert ZText(342) == 83;
    hide ZText, AOffset, ALen, ACode, TokenOf;
    assert Spelling(81) == "VALUES";
  }

  lemma Virtual()
    ensures Spelled(82) && Coded(82)
  {
    assert AOffset(82) == 343 && ALen(82) == 7 && ACode(82) == TokenOf("VIRTUAL") != TK_ID;
    assert ZText(343) == 86 && ZText(344) == 73 && ZText(345) == 82 && ZText(346) == 84 && ZText(347) == 85;
    assert ZText(348) == 65 && ZText(349) == 76;
    hide ZText, AOffset, ALen, ACode, TokenOf;
    assert Spelling(82) == "VIRTUAL";
  }

  lemma Limit()
    ensures Spelled(83) && Coded(83)
  {
    assert AOffset(83) == 349 && ALen(83) == 5 && ACode(83) == TokenOf("LIMIT") != TK_ID;
    assert ZText(349) == 76 && ZText(350) == 73 && ZText(351) == 77 && ZText(352) == 73 && ZText(353) == 84;
    hide ZText, AOffset, ALen, ACode, TokenOf;
    assert Spelling(83) == "LIMIT";
  }

  lemma When()
    ensures Spelled(84) && Coded(84)
  {
    assert AOffset(84) == 354 && ALen(84) == 4 && ACode(84) == TokenOf("WHEN") != TK_ID;
    assert ZText(354) == 87 && ZText(355) == 72 && ZText(356) == 69 && ZText(357) == 78;
    hide ZText, AOffset, ALen, ACode, TokenOf;
    assert Spelling(84) == "WHEN";
  }

  lemma Where()
    ensures Spelled(85) && Coded(85)
  {
    assert AOffset(85) == 358 && ALen(85) == 5 && ACode(85) == TokenOf("WHERE") != TK_ID;
    assert ZText(358) == 87 && ZText(359) == 72 && ZText(360) == 69 && ZText(361) == 82 && ZText(362) == 69;
    hide ZText, AOffset, ALen, ACode, TokenOf;
    assert Spelling(85) == "WHERE";
  }

  lemma Rename()
    ensures Spelled(86) && Coded(86)
  {
    assert AOffset(86) == 361 && ALen(86) == 6 && ACode(86) == TokenOf("RENAME") != TK_ID;
    assert ZText(361) == 82 && ZText(362) == 69 && ZText(363) == 78 && ZText(364) == 65 && ZText(365) == 77;
    assert ZText(366) == 69;
    hide ZText, AOffset, ALen, ACode, TokenOf;
    assert Spelling(86) == "RENAME";
  }

  lemma After()
    ensures Spelled(87) && Coded(87)
  {
    assert AOffset(87) == 367 && ALen(87) == 5 && ACode(87) == TokenOf("AFTER") != TK_ID;
    assert ZText(367) == 65 && ZText(368) == 70 && ZText(369) == 84 && ZText(370) == 69 && ZText(371) == 82;
    hide ZText, AOffset, ALen, ACode, TokenOf;
    assert Spelling(87) == "AFTER";
  }

  lemma Replace()
    ensures Spelled(88) && Coded(88)
  {
    assert AOffset(88) == 371 && ALen(88) == 7 && ACode(88) == TokenOf("REPLACE") != TK_ID;
    assert ZText(371) == 82 && ZText(372) == 69 && ZText(373) == 80 && ZText(374) == 76 && ZText(375) == 65;
    assert ZText(376) == 67 && ZText(377) == 69;
    hide ZText, AOffset, ALen, ACode, TokenOf;
    assert Spelling(88) == "REPLACE";
  }

  lemma And()
    ensures Spelled(89) && Coded(89)
  {
    assert AOffset(89) == 378 && ALen(89) == 3 && ACode(89) == TokenOf("AND") != TK_ID;
    assert ZText(378) == 65 && ZText(379) == 78 && ZText(380) == 68;
    hide ZText, AOffset, ALen, ACode, TokenOf;
    assert Spelling(89) == "AND";
  }

  lemma Default()
    ensures Spelled(90) && Coded(90)
  {
    assert AOffset(90) == 380 && ALen(90) == 7 && ACode(90) == TokenOf("DEFAULT") != TK_ID;
    assert ZText(380) == 68 && ZText(381) == 69 && ZText(382) == 70 && ZText(383) == 65 && ZText(384) == 85;
    assert ZText(385) == 76 && ZText(386) == 84;
    hide ZText, AOffset, ALen, ACode, TokenOf;
    assert Spelling(90) == "DEFAULT";
  }

  lemma AutoincrementStarts()
    ensures ZText(387) == 65 && ZText(388) == 85 && ZText(389) == 84 && ZText(390) == 79 && ZText(391) == 73
    ensures ZText(392) == 78 && ZText(393) == 67 && ZText(394) == 82 && ZText(395) == 69 && ZText(396) == 77
  {
  }

  lemma Autoincrement()
    ensures Spelled(91) && Coded(91)
  {
    assert AOffset(91) == 387 && ALen(91) == 13 && ACode(91) == TokenOf("AUTOINCREMENT") != TK_ID;
    AutoincrementStarts();
    assert ZText(397) == 69 && ZText(398) == 78 && ZText(399) == 84;
    hide ZText, AOffset, ALen, ACode, TokenOf;
    assert Spelling(91) == "AUTOINCREMENT";
  }

  lemma To()
    ensures Spelled(92) && Coded(92)
  {
    assert AOffset(92) == 389 && ALen(92) == 2 && ACode(92) == TokenOf("TO") != TK_ID;
    assert ZText(389) == 84 && ZText(390) == 79;
    hide ZText, AOffset, ALen, ACode, TokenOf;
    assert Spelling(92) == "TO";
  }

  lemma In()
    ensures Spelled(93) && Coded(93)
  {
    assert AOffset(93) == 391 && ALen(93) == 2 && ACode(93) == TokenOf("IN") != TK_ID;
    assert ZText(391) == 73 && ZText(392) == 78;
    hide ZText, AOffset, ALen, ACode, TokenOf;
    assert Spelling(93) == "IN";
  }

  lemma Cast()
    ensures Spelled(94) && Coded(94)
  {
    assert AOffset(94) == 400 && ALen(94) == 4 && ACode(94) == TokenOf("CAST") != TK_ID;
    assert ZText(400) == 67 && ZText(401) == 65 && ZText(402) == 83 && ZText(403) == 84;
    hide ZText, AOffset, ALen, ACode, TokenOf;
    assert Spelling(94) == "CAST";
  }

  lemma Column()
    ensures Spelled(95) && Coded(95)
  {
    assert AOffset(95) == 404 && ALen(95) == 6 && ACode(95) == TokenOf("COLUMN") != TK_ID;
    assert ZText(404) == 67 && ZText(405) == 79 && ZText(406) == 76 && ZText(407) == 85 && ZText(408) == 77;
    assert ZText(409) == 78;
    hide ZText, AOffset, ALen, ACode, TokenOf;
    assert Spelling(95) == "COLUMN";
  }

  lemma Commit()
    ensures Spelled(96) && Coded(96)
  {
    assert AOffset(96) == 410 && ALen(96) == 6 && ACode(96) == TokenOf("COMMIT") != TK_ID;
    assert ZText(410) == 67 && ZText(411) == 79 && ZText(412) == 77 && ZText(413) == 77 && ZText(414) == 73;
    assert ZText(415) == 84;
    hide ZText, AOffset, ALen, ACode, TokenOf;
    assert Spelling(96) == "COMMIT";
  }

  lemma ConflictStarts()
    ensures ZText(416) == 67 && ZText(417) == 79 && ZText(418) == 78 && ZText(419) == 70 && ZText(420) == 76
  {
  }

  lemma Conflict()
    ensures Spelled(97) && Coded(97)
  {
    assert AOffset(97) == 416 && ALen(97) == 8 && ACode(97) == TokenOf("CONFLICT") != TK_ID;
    ConflictStarts();
    assert ZText(421) == 73 && ZText(422) == 67 && ZText(423) == 84;
    hide ZText, AOffset, ALen, ACode, TokenOf;
    assert Spelling(97) == "CONFLICT";
  }

  lemma Cross()
    ensures Spelled(98) && Coded(98)
  {
    assert AOffset(98) == 424 && ALen(98) == 5 && ACode(98) == TokenOf("CROSS") != TK_ID;
    assert ZText(424) == 67 && ZText(425) == 82 && ZText(426) == 79 && ZText(427) == 83 && ZText(428) == 83;
    hide ZText, AOffset, ALen, ACode, TokenOf;
    assert Spelling(98) == "CROSS";
  }

  lemma CurrentTimestampStarts()
    ensures ZText(429) == 67 && ZText(430) == 85 && ZText(431) == 82 && ZText(432) == 82 && ZText(433) == 69
    ensures ZText(434) == 78 && ZText(435) == 84 && ZText(436) == 95 && ZText(437) == 84 && ZText(438) == 73
  {
  }

  lemma CurrentTimestamp()
    ensures Spelled(99) && Coded(99)
  {
    assert AOffset(99) == 429 && ALen(99) == 17 && ACode(99) == TokenOf("CURRENT_TIMESTAMP") != TK_ID;
    CurrentTimestampStarts();
    assert ZText(439) == 77 && ZText(440) == 69 && ZText(441) == 83 && ZText(442) == 84 && ZText(443) == 65;
    assert ZText(444) == 77 && ZText(445) == 80;
    hide ZText, AOffset, ALen, ACode, TokenOf;
    assert Spelling(99) == "CURRENT_TIMESTAMP";
  }

  lemma CurrentTimeStarts()
    ensures ZText(429) == 67 && ZText(430) == 85 && ZText(431) == 82 && ZText(432) == 82 && ZText(433) == 69
    ensures ZText(434) == 78 && ZText(435) == 84 && ZText(436) == 95 && ZText(437) == 84 && ZText(438) == 73
  {
  }

  lemma CurrentTime()
    ensures Spelled(100) && Coded(100)
  {
    assert AOffset(100) == 429 && ALen(100) == 12 && ACode(100) == TokenOf("CURRENT_TIME") != TK_ID;
    CurrentTimeStarts();
    assert ZText(439) == 77 && ZText(440) == 69;
    hide ZText, AOffset, ALen, ACode, TokenOf;
    assert Spelling(100) == "CURRENT_TIME";
  }

  lemma Primary()
    ensures Spelled(101) && Coded(101)
  {
    assert AOffset(101) == 445 && ALen(101) == 7 && ACode(101) == TokenOf("PRIMARY") != TK_ID;
    assert ZText(445) == 80 && ZText(446) == 82 && ZText(447) == 73 && ZText(448) == 77 && ZText(449) == 65;
    assert ZText(450) == 82 && ZText(451) == 89;
    hide ZText, AOffset, ALen, ACode, TokenOf;
    assert Spelling(101) == "PRIMARY";
  }

  lemma DeferredStarts()
    ensures ZText(452) == 68 && ZText(453) == 69 && ZText(454) == 70 && ZText(455) == 69 && ZText(456) == 82
  {
  }

  lemma Deferred()
    ensures Spelled(102) && Coded(102)
  {
    assert AOffset(102) == 452 && ALen(102) == 8 && ACode(102) == TokenOf("DEFERRED") != TK_ID;
    DeferredStarts();
    assert ZText(457) == 82 && ZText(458) == 69 && ZText(459) == 68;
    hide ZText, AOffset, ALen, ACode, TokenOf;
    assert Spelling(102) == "DEFERRED";
  }

  lemma DistinctStarts()
    ensures ZText(459) == 68 && ZText(460) == 73 && ZText(461) == 83 && ZText(462) == 84 && ZText(463) == 73
  {
  }

  lemma Distinct()
    ensures Spelled(103) && Coded(103)
  {
    assert AOffset(103) == 459 && ALen(103) == 8 && ACode(103) == TokenOf("DISTINCT") != TK_ID;
    DistinctStarts();
    assert ZText(464) == 78 && ZText(465) == 67 && ZText(466) == 84;
    hide ZText, AOffset, ALen, ACode, TokenOf;
    assert Spelling(103) == "DISTINCT";
  }

  lemma Is()
    ensures Spelled(104) && Coded(104)
  {
    assert AOffset(104) == 460 && ALen(104) == 2 && ACode(104) == TokenOf("IS") != TK_ID;
    assert ZText(460) == 73 && ZText(461) == 83;
    hide ZText, AOffset, ALen, ACode, TokenOf;
    assert Spelling(104) == "IS";
  }

  lemma Drop()
    ensures Spelled(105) && Coded(105)
  {
    assert AOffset(105) == 467 && ALen(105) == 4 && ACode(105) == TokenOf("DROP") != TK_ID;
    assert ZText(467) == 68 && ZText(468) == 82 && ZText(469) == 79 && ZText(470) == 80;
    hide ZText, AOffset, ALen, ACode, TokenOf;
    assert Spelling(105) == "DROP";
  }

  lemma Fail()
    ensures Spelled(106) && Coded(106)
  {
    assert AOffset(106) == 471 && ALen(106) == 4 && ACode(106) == TokenOf("FAIL") != TK_ID;
    assert ZText(471) == 70 && ZText(472) == 65 && ZText(473) == 73 && ZText(474) == 76;
    hide ZText, AOffset, ALen, ACode, TokenOf;
    assert Spelling(106) == "FAIL";
  }

  lemma From()
    ensures Spelled(107) && Coded(107)
  {
    assert AOffset(107) == 475 && ALen(107) == 4 && ACode(107) == TokenOf("FROM") != TK_ID;
    assert ZText(475) == 70 && ZText(476) == 82 && ZText(477) == 79 && ZText(478) == 77;
    hide ZText, AOffset, ALen, ACode, TokenOf;
    assert Spelling(107) == "FROM";
  }

  lemma Full()
    ensures Spelled(108) && Coded(108)
  {
    assert AOffset(108) == 479 && ALen(108) == 4 && ACode(108) == TokenOf("FULL") != TK_ID;
    assert ZText(479) == 70 && ZText(480) == 85 && ZText(481) == 76 && ZText(482) == 76;
    hide ZText, AOffset, ALen, ACode, TokenOf;
    assert Spelling(108) == "FULL";
  }

  lemma Glob()
    ensures Spelled(109) && Coded(109)
  {
    assert AOffset(109) == 483 && ALen(109) == 4 && ACode(109) == TokenOf("GLOB") != TK_ID;
    assert ZText(483) == 71 && ZText(484) == 76 && ZText(485) == 79 && ZText(486) == 66;
    hide ZText, AOffset, ALen, ACode, TokenOf;
    assert Spelling(109) == "GLOB";
  }

  lemma By()
    ensures Spelled(110) && Coded(110)
  {
    assert AOffset(110) == 486 && ALen(110) == 2 && ACode(110) == TokenOf("BY") != TK_ID;
    assert ZText(486) == 66 && ZText(487) == 89;
    hide ZText, AOffset, ALen, ACode, TokenOf;
    assert Spelling(110) == "BY";
  }

  lemma If()
    ensures Spelled(111) && Coded(111)
  {
    assert AOffset(111) == 488 && ALen(111) == 2 && ACode(111) == TokenOf("IF") != TK_ID;
    assert ZText(488) == 73 && ZText(489) == 70;
    hide ZText, AOffset, ALen, ACode, TokenOf;
    assert Spelling(111) == "IF";
  }

  lemma Isnull()
    ensures Spelled(112) && Coded(112)
  {
    assert AOffset(112) == 490 && ALen(112) == 6 && ACode(112) == TokenOf("ISNULL") != TK_ID;
    assert ZText(490) == 73 && ZText(491) == 83 && ZText(492) == 78 && ZText(493) == 85 && ZText(494) == 76;
    assert ZText(495) == 76;
    hide ZText, AOffset, ALen, ACode, TokenOf;
    assert Spelling(112) == "ISNULL";
  }

  lemma Order()
    ensures Spelled(113) && Coded(113)
  {
    assert AOffset(113) == 496 && ALen(113) == 5 && ACode(113) == TokenOf("ORDER") != TK_ID;
    assert ZText(496) == 79 && ZText(497) == 82 && ZText(498) == 68 && ZText(499) == 69 && ZText(500) == 82;
    hide ZText, AOffset, ALen, ACode, TokenOf;
    assert Spelling(113) == "ORDER";
  }

  lemma RestrictStarts()
    ensures ZText(500) == 82 && ZText(501) == 69 && ZText(502) == 83 && ZText(503) == 84 && ZText(504) == 82
  {
  }

  lemma Restrict()
    ensures Spelled(114) && Coded(114)
  {
    assert AOffset(114) == 500 && ALen(114) == 8 && ACode(114) == TokenOf("RESTRICT") != TK_ID;
    RestrictStarts();
    assert ZText(505) == 73 && ZText(506) == 67 && ZText(507) == 84;
    hide ZText, AOffset, ALen, ACode, TokenOf;
    assert Spelling(114) == "RESTRICT";
  }

  lemma Right()
    ensures Spelled(115) && Coded(115)
  {
    assert AOffset(115) == 508 && ALen(115) == 5 && ACode(115) == TokenOf("RIGHT") != TK_ID;
    assert ZText(508) == 82 && ZText(509) == 73 && ZText(510) == 71 && ZText(511) == 72 && ZText(512) == 84;
    hide ZText, AOffset, ALen, ACode, TokenOf;
    assert Spelling(115) == "RIGHT";
  }

  lemma RollbackStarts()
    ensures ZText(513) == 82 && ZText(514) == 79 && ZText(515) == 76 && ZText(516) == 76 && ZText(517) == 66
  {
  }

  lemma Rollback()
    ensures Spelled(116) && Coded(116)
  {
    assert AOffset(116) == 513 && ALen(116) == 8 && ACode(116) == TokenOf("ROLLBACK") != TK_ID;
    RollbackStarts();
    assert ZText(518) == 65 && ZText(519) == 67 && ZText(520) == 75;
    hide ZText, AOffset, ALen, ACode, TokenOf;
    assert Spelling(116) == "ROLLBACK";
  }

  lemma Row()
    ensures Spelled(117) && Coded(117)
  {
    assert AOffset(117) == 521 && ALen(117) == 3 && ACode(117) == TokenOf("ROW") != TK_ID;
    assert ZText(521) == 82 && ZText(522) == 79 && ZText(523) == 87;
    hide ZText, AOffset, ALen, ACode, TokenOf;
    assert Spelling(117) == "ROW";
  }

  lemma Union()
    ensures Spelled(118) && Coded(118)
  {
    assert AOffset(118) == 524 && ALen(118) == 5 && ACode(118) == TokenOf("UNION") != TK_ID;
    assert ZText(524) == 85 && ZText(525) == 78 && ZText(526) == 73 && ZText(527) == 79 && ZText(528) == 78;
    hide ZText, AOffset, ALen, ACode, TokenOf;
    assert Spelling(118) == "UNION";
  }

  lemma Using()
    ensures Spelled(119) && Coded(119)
  {
    assert AOffset(119) == 529 && ALen(119) == 5 && ACode(119) == TokenOf("USING") != TK_ID;
    assert ZText(529) == 85 && ZText(530) == 83 && ZText(531) == 73 && ZText(532) == 78 && ZText(533) == 71;
    hide ZText, AOffset, ALen, ACode, TokenOf;
    assert Spelling(119) == "USING";
  }

  lemma Vacuum()
    ensures Spelled(120) && Coded(120)
  {
    assert AOffset(120) == 534 && ALen(120) == 6 && ACode(120) == TokenOf("VACUUM") != TK_ID;
    assert ZText(534) == 86 && ZText(535) == 65 && ZText(536) == 67 && ZText(537) == 85 && ZText(538) == 85;
    assert ZText(539) == 77;
    hide ZText, AOffset, ALen, ACode, TokenOf;
    assert Spelling(120) == "VACUUM";
  }

  lemma View()
    ensures Spelled(121) && Coded(121)
  {
    assert AOffset(121) == 540 && ALen(121) == 4 && ACode(121) == TokenOf("VIEW") != TK_ID;
    assert ZText(540) == 86 && ZText(541) == 73 && ZText(542) == 69 && ZText(543) == 87;
    hide ZText, AOffset, ALen, ACode, TokenOf;
    assert Spelling(121) == "VIEW";
  }

  lemma InitiallyStarts()
    ensures ZText(544) == 73 && ZText(545) == 78 && ZText(546) == 73 && ZText(547) == 84 && ZText(548) == 73
  {
  }

  lemma Initially()
    ensures Spelled(122) && Coded(122)
  {
    assert AOffset(122) == 544 && ALen(122) == 9 && ACode(122) == TokenOf("INITIALLY") != TK_ID;
    InitiallyStarts();
    assert ZText(549) == 65 && ZText(550) == 76 && ZText(551) == 76 && ZText(552) == 89;
    hide ZText, AOffset, ALen, ACode, TokenOf;
    assert Spelling(122) == "INITIALLY";
  }

  lemma All()
    ensures Spelled(123) && Coded(123)
  {
    assert AOffset(123) == 549 && ALen(123) == 3 && ACode(123) == TokenOf("ALL") != TK_ID;
    assert ZText(549) == 65 && ZText(550) == 76 && ZText(551) == 76;
    hide ZText, AOffset, ALen, ACode, TokenOf;
    assert Spelling(123) == "ALL";
  }

  lemma SpelledFrom0(i: nat)
    requires 0 <= i < 31
    ensures Spelled(i) && Coded(i)
  {
    hide Spelled, Coded;
    match i
    case 0 => Reindex();
    case 1 => Indexed();
    case 2 => Index();
    case 3 => Desc();
    case 4 => Escape();
    case 5 => Each();
    case 6 => Check();
    case 7 => Key();
    case 8 => Before();
    case 9 => Foreign();
    case 10 => For();
    case 11 => Ignore();
    case 12 => Regexp();
    case 13 => Explain();
    case 14 => Instead();
    case 15 => Add();
    case 16 => Database();
    case 17 => As();
    case 18 => Select();
    case 19 => Table();
    case 20 => Left();
    case 21 => Then();
    case 22 => End();
    case 23 => Deferrable();
    case 24 => Else();
    case 25 => Except();
    case 26 => Transaction();
    case 27 => Action();
    case 28 => On();
    case 29 => Natural();
    case _ => Alter();
  }

  lemma SpelledFrom31(i: nat)
    requires 31 <= i < 62
    ensures Spelled(i) && Coded(i)
  {
    hide Spelled, Coded;
    match i
    case 31 => Raise();
    case 32 => Exclusive();
    case 33 => Exists();
    case 34 => Savepoint();
    case 35 => Intersect();
    case 36 => Trigger();
    case 37 => References();
    case 38 => Constraint();
    case 39 => Into();
    case 40 => Offset();
    case 41 => Of();
    case 42 => Set();
    case 43 => Temporary();
    case 44 => Temp();
    case 45 => Or();
    case 46 => Unique();
    case 47 => Query();
    case 48 => Without();
    case 49 => With();
    case 50 => Outer();
    case 51 => Release();
    case 52 => Attach();
    case 53 => Having();
    case 54 => Group();
    case 55 => Update();
    case 56 => Begin();
    case 57 => Inner();
    case 58 => Recursive();
    case 59 => Between();
    case 60 => Notnull();
    case _ => Not();
  }

  lemma SpelledFrom62(i: nat)
    requires 62 <= i < 93
    ensures Spelled(i) && Coded(i)
  {
    hide Spelled, Coded;
    match i
    case 62 => No();
    case 63 => Null();
    case 64 => Like();
    case 65 => Cascade();
    case 66 => Asc();
    case 67 => Delete();
    case 68 => Case();
    case 69 => Collate();
    case 70 => Create();
    case 71 => CurrentDate();
    case 72 => Detach();
    case 73 => Immediate();
    case 74 => Join();
    case 75 => Insert();
    case 76 => Match();
    case 77 => Plan();
    case 78 => Analyze();
    case 79 => Pragma();
    case 80 => Abort();
    case 81 => Values();
    case 82 => Virtual();
    case 83 => Limit();
    case 84 => When();
    case 85 => Where();
    case 86 => Rename();
    case 87 => After();
    case 88 => Replace();
    case 89 => And();
    case 90 => Default();
    case 91 => Autoincrement();
    case _ => To();
  }

  lemma SpelledFrom93(i: nat)
    requires 93 <= i < 124
    ensures Spelled(i) && Coded(i)
  {
    hide Spelled, Coded;
    match i
    case 93 => In();
    case 94 => Cast();
    case 95 => Column();
    case 96 => Commit();
    case 97 => Conflict();
    case 98 => Cross();
    case 99 => CurrentTimestamp();
    case 100 => CurrentTime();
    case 101 => Primary();
    case 102 => Deferred();
    case 103 => Distinct();
    case 104 => Is();
    case 105 => Drop();
    case 106 => Fail();
    case 107 => From();
    case 108 => Full();
    case 109 => Glob();
    case 110 => By();
    case 111 => If();
    case 112 => Isnull();
    case 113 => Order();
    case 114 => Restrict();
    case 115 => Right();
    case 116 => Rollback();
    case 117 => Row();
    case 118 => Union();
    case 119 => Using();
    case 120 => Vacuum();
    case 121 => View();
    case 122 => Initially();
    case _ => All();
  }

  lemma EveryKeywordSpelled(i: nat)
    requires i < KEYWORDS
    ensures Spelled(i) && Coded(i)
  {
    hide Spelled, Coded;
    if i < 31 {
      SpelledFrom0(i);
    } else if i < 62 {
      SpelledFrom31(i);
    } else if i < 93 {
      SpelledFrom62(i);
    } else {
      SpelledFrom93(i);
    }
  }
}
