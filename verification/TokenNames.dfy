/** The names of the token types, and the name that each keyword calls for. */
module TokenNames {
  import opened KeywordTables

  /** Token types by number. */
  function TokenName(n: nat): string {
    if n <= 21 then Names0(n) else if n <= 42 then Names1(n) else if n <= 63 then Names2(n) else
    if n <= 84 then Names3(n) else if n <= 105 then Names4(n) else if n <= 126 then Names5(n) else
    if n <= 147 then Names6(n) else Names7(n)
  }

  function Names0(n: nat): string {
    match n
    case 1 => "SEMI" case 2 => "EXPLAIN" case 3 => "QUERY" case 4 => "PLAN" case 5 => "BEGIN"
    case 6 => "TRANSACTION" case 7 => "DEFERRED" case 8 => "IMMEDIATE" case 9 => "EXCLUSIVE"
    case 10 => "COMMIT" case 11 => "END" case 12 => "ROLLBACK" case 13 => "SAVEPOINT" case 14 => "RELEASE"
    case 15 => "TO" case 16 => "TABLE" case 17 => "CREATE" case 18 => "IF" case 19 => "NOT"
    case 20 => "EXISTS" case 21 => "TEMP"
    case _ => ""
  }

  function Names1(n: nat): string {
    match n
    case 22 => "LP" case 23 => "RP" case 24 => "AS" case 25 => "WITHOUT" case 26 => "COMMA" case 27 => "OR"
    case 28 => "AND" case 29 => "IS" case 30 => "MATCH" case 31 => "LIKE_KW" case 32 => "BETWEEN"
    case 33 => "IN" case 34 => "ISNULL" case 35 => "NOTNULL" case 36 => "NE" case 37 => "EQ" case 38 => "GT"
    case 39 => "LE" case 40 => "LT" case 41 => "GE" case 42 => "ESCAPE"
    case _ => ""
  }

  function Names2(n: nat): string {
    match n
    case 43 => "BITAND" case 44 => "BITOR" case 45 => "LSHIFT" case 46 => "RSHIFT" case 47 => "PLUS"
    case 48 => "MINUS" case 49 => "STAR" case 50 => "SLASH" case 51 => "REM" case 52 => "CONCAT"
    case 53 => "COLLATE" case 54 => "BITNOT" case 55 => "ID" case 56 => "INDEXED" case 57 => "ABORT"
    case 58 => "ACTION" case 59 => "AFTER" case 60 => "ANALYZE" case 61 => "ASC" case 62 => "ATTACH"
    case 63 => "BEFORE"
    case _ => ""
  }

  function Names3(n: nat): string {
    match n
    case 64 => "BY" case 65 => "CASCADE" case 66 => "CAST" case 67 => "COLUMNKW" case 68 => "CONFLICT"
    case 69 => "DATABASE" case 70 => "DESC" case 71 => "DETACH" case 72 => "EACH" case 73 => "FAIL"
    case 74 => "FOR" case 75 => "IGNORE" case 76 => "INITIALLY" case 77 => "INSTEAD" case 78 => "NO"
    case 79 => "KEY" case 80 => "OF" case 81 => "OFFSET" case 82 => "PRAGMA" case 83 => "RAISE"
    case 84 => "RECURSIVE"
    case _ => ""
  }

  function Names4(n: nat): string {
    match n
    case 85 => "REPLACE" case 86 => "RESTRICT" case 87 => "ROW" case 88 => "TRIGGER" case 89 => "VACUUM"
    case 90 => "VIEW" case 91 => "VIRTUAL" case 92 => "WITH" case 93 => "REINDEX" case 94 => "RENAME"
    case 95 => "CTIME_KW" case 96 => "ANY" case 97 => "STRING" case 98 => "JOIN_KW" case 99 => "CONSTRAINT"
    case 100 => "DEFAULT" case 101 => "NULL" case 102 => "PRIMARY" case 103 => "UNIQUE" case 104 => "CHECK"
    case 105 => "REFERENCES"
    case _ => ""
  }

  function Names5(n: nat): string {
    match n
    case 106 => "AUTOINCR" case 107 => "ON" case 108 => "INSERT" case 109 => "DELETE" case 110 => "UPDATE"
    case 111 => "SET" case 112 => "DEFERRABLE" case 113 => "FOREIGN" case 114 => "DROP" case 115 => "UNION"
    case 116 => "ALL" case 117 => "EXCEPT" case 118 => "INTERSECT" case 119 => "SELECT" case 120 => "VALUES"
    case 121 => "DISTINCT" case 122 => "DOT" case 123 => "FROM" case 124 => "JOIN" case 125 => "USING"
    case 126 => "ORDER"
    case _ => ""
  }

  function Names6(n: nat): string {
    match n
    case 127 => "GROUP" case 128 => "HAVING" case 129 => "LIMIT" case 130 => "WHERE" case 131 => "INTO"
    case 132 => "FLOAT" case 133 => "BLOB" case 134 => "INTEGER" case 135 => "VARIABLE" case 136 => "CASE"
    case 137 => "WHEN" case 138 => "THEN" case 139 => "ELSE" case 140 => "INDEX" case 141 => "ALTER"
    case 142 => "ADD" case 143 => "TO_TEXT" case 144 => "TO_BLOB" case 145 => "TO_NUMERIC"
    case 146 => "TO_INT" case 147 => "TO_REAL"
    case _ => ""
  }

  function Names7(n: nat): string {
    match n
    case 148 => "ISNOT" case 149 => "END_OF_FILE" case 150 => "UNCLOSED_STRING" case 151 => "FUNCTION"
    case 152 => "COLUMN" case 153 => "AGG_FUNCTION" case 154 => "AGG_COLUMN" case 155 => "UMINUS"
    case 156 => "UPLUS" case 157 => "REGISTER" case 158 => "VECTOR" case 159 => "SELECT_COLUMN"
    case 160 => "ASTERISK" case 161 => "SPAN" case 162 => "SPACE" case 163 => "ILLEGAL"
    case _ => ""
  }

  // ----- keywords -----

  predicate IsJoinWord(w: string) {
    w == "LEFT" || w == "RIGHT" || w == "FULL" || w == "INNER" || w == "OUTER" || w == "CROSS" || w == "NATURAL"
  }

  predicate IsLikeWord(w: string) { w == "LIKE" || w == "GLOB" || w == "REGEXP" }

  predicate IsTimeWord(w: string) { w == "CURRENT_DATE" || w == "CURRENT_TIME" || w == "CURRENT_TIMESTAMP" }

  /** The token type that a keyword calls for: its namesake, but for the words that share a type
      and three with another name. */
  function TypeFor(w: string): string {
    if IsJoinWord(w) then "JOIN_KW"
    else if IsLikeWord(w) then "LIKE_KW"
    else if IsTimeWord(w) then "CTIME_KW"
    else if w == "TEMPORARY" then "TEMP"
    else if w == "COLUMN" then "COLUMNKW"
    else if w == "AUTOINCREMENT" then "AUTOINCR"
    else w
  }

  lemma Codes0(i: nat)
    requires 0 <= i < 3
    ensures TokenName(ACode(i)) == TypeFor(Word(i))
  {
    match i
    case 0 => assert TokenName(ACode(0)) == TypeFor(Word(0));
    case 1 => assert TokenName(ACode(1)) == TypeFor(Word(1));
    case 2 => assert TokenName(ACode(2)) == TypeFor(Word(2));
  }

  lemma Codes1(i: nat)
    requires 3 <= i < 6
    ensures TokenName(ACode(i)) == TypeFor(Word(i))
  {
    match i
    case 3 => assert TokenName(ACode(3)) == TypeFor(Word(3));
    case 4 => assert TokenName(ACode(4)) == TypeFor(Word(4));
    case 5 => assert TokenName(ACode(5)) == TypeFor(Word(5));
  }

  lemma Codes2(i: nat)
    requires 6 <= i < 9
    ensures TokenName(ACode(i)) == TypeFor(Word(i))
  {
    match i
    case 6 => assert TokenName(ACode(6)) == TypeFor(Word(6));
    case 7 => assert TokenName(ACode(7)) == TypeFor(Word(7));
    case 8 => assert TokenName(ACode(8)) == TypeFor(Word(8));
  }

  lemma Codes3(i: nat)
    requires 9 <= i < 12
    ensures TokenName(ACode(i)) == TypeFor(Word(i))
  {
    match i
    case 9 => assert TokenName(ACode(9)) == TypeFor(Word(9));
    case 10 => assert TokenName(ACode(10)) == TypeFor(Word(10));
    case 11 => assert TokenName(ACode(11)) == TypeFor(Word(11));
  }

  lemma Codes4(i: nat)
    requires 12 <= i < 15
    ensures TokenName(ACode(i)) == TypeFor(Word(i))
  {
    match i
    case 12 => assert TokenName(ACode(12)) == TypeFor(Word(12));
    case 13 => assert TokenName(ACode(13)) == TypeFor(Word(13));
    case 14 => assert TokenName(ACode(14)) == TypeFor(Word(14));
  }

  lemma Codes5(i: nat)
    requires 15 <= i < 18
    ensures TokenName(ACode(i)) == TypeFor(Word(i))
  {
    match i
    case 15 => assert TokenName(ACode(15)) == TypeFor(Word(15));
    case 16 => assert TokenName(ACode(16)) == TypeFor(Word(16));
    case 17 => assert TokenName(ACode(17)) == TypeFor(Word(17));
  }

  lemma Codes6(i: nat)
    requires 18 <= i < 21
    ensures TokenName(ACode(i)) == TypeFor(Word(i))
  {
    match i
    case 18 => assert TokenName(ACode(18)) == TypeFor(Word(18));
    case 19 => assert TokenName(ACode(19)) == TypeFor(Word(19));
    case 20 => assert TokenName(ACode(20)) == TypeFor(Word(20));
  }

  lemma Codes7(i: nat)
    requires 21 <= i < 24
    ensures TokenName(ACode(i)) == TypeFor(Word(i))
  {
    match i
    case 21 => assert TokenName(ACode(21)) == TypeFor(Word(21));
    case 22 => assert TokenName(ACode(22)) == TypeFor(Word(22));
    case 23 => assert TokenName(ACode(23)) == TypeFor(Word(23));
  }

  lemma Codes8(i: nat)
    requires 24 <= i < 27
    ensures TokenName(ACode(i)) == TypeFor(Word(i))
  {
    match i
    case 24 => assert TokenName(ACode(24)) == TypeFor(Word(24));
    case 25 => assert TokenName(ACode(25)) == TypeFor(Word(25));
    case 26 => assert TokenName(ACode(26)) == TypeFor(Word(26));
  }

  lemma Codes9(i: nat)
    requires 27 <= i < 30
    ensures TokenName(ACode(i)) == TypeFor(Word(i))
  {
    match i
    case 27 => assert TokenName(ACode(27)) == TypeFor(Word(27));
    case 28 => assert TokenName(ACode(28)) == TypeFor(Word(28));
    case 29 => assert TokenName(ACode(29)) == TypeFor(Word(29));
  }

  lemma Codes10(i: nat)
    requires 30 <= i < 33
    ensures TokenName(ACode(i)) == TypeFor(Word(i))
  {
    match i
    case 30 => assert TokenName(ACode(30)) == TypeFor(Word(30));
    case 31 => assert TokenName(ACode(31)) == TypeFor(Word(31));
    case 32 => assert TokenName(ACode(32)) == TypeFor(Word(32));
  }

  lemma Codes11(i: nat)
    requires 33 <= i < 36
    ensures TokenName(ACode(i)) == TypeFor(Word(i))
  {
    match i
    case 33 => assert TokenName(ACode(33)) == TypeFor(Word(33));
    case 34 => assert TokenName(ACode(34)) == TypeFor(Word(34));
    case 35 => assert TokenName(ACode(35)) == TypeFor(Word(35));
  }

  lemma Codes12(i: nat)
    requires 36 <= i < 39
    ensures TokenName(ACode(i)) == TypeFor(Word(i))
  {
    match i
    case 36 => assert TokenName(ACode(36)) == TypeFor(Word(36));
    case 37 => assert TokenName(ACode(37)) == TypeFor(Word(37));
    case 38 => assert TokenName(ACode(38)) == TypeFor(Word(38));
  }

  lemma Codes13(i: nat)
    requires 39 <= i < 42
    ensures TokenName(ACode(i)) == TypeFor(Word(i))
  {
    match i
    case 39 => assert TokenName(ACode(39)) == TypeFor(Word(39));
    case 40 => assert TokenName(ACode(40)) == TypeFor(Word(40));
    case 41 => assert TokenName(ACode(41)) == TypeFor(Word(41));
  }

  lemma Codes14(i: nat)
    requires 42 <= i < 45
    ensures TokenName(ACode(i)) == TypeFor(Word(i))
  {
    match i
    case 42 => assert TokenName(ACode(42)) == TypeFor(Word(42));
    case 43 => assert TokenName(ACode(43)) == TypeFor(Word(43));
    case 44 => assert TokenName(ACode(44)) == TypeFor(Word(44));
  }

  lemma Codes15(i: nat)
    requires 45 <= i < 48
    ensures TokenName(ACode(i)) == TypeFor(Word(i))
  {
    match i
    case 45 => assert TokenName(ACode(45)) == TypeFor(Word(45));
    case 46 => assert TokenName(ACode(46)) == TypeFor(Word(46));
    case 47 => assert TokenName(ACode(47)) == TypeFor(Word(47));
  }

  lemma Codes16(i: nat)
    requires 48 <= i < 51
    ensures TokenName(ACode(i)) == TypeFor(Word(i))
  {
    match i
    case 48 => assert TokenName(ACode(48)) == TypeFor(Word(48));
    case 49 => assert TokenName(ACode(49)) == TypeFor(Word(49));
    case 50 => assert TokenName(ACode(50)) == TypeFor(Word(50));
  }

  lemma Codes17(i: nat)
    requires 51 <= i < 54
    ensures TokenName(ACode(i)) == TypeFor(Word(i))
  {
    match i
    case 51 => assert TokenName(ACode(51)) == TypeFor(Word(51));
    case 52 => assert TokenName(ACode(52)) == TypeFor(Word(52));
    case 53 => assert TokenName(ACode(53)) == TypeFor(Word(53));
  }

  lemma Codes18(i: nat)
    requires 54 <= i < 57
    ensures TokenName(ACode(i)) == TypeFor(Word(i))
  {
    match i
    case 54 => assert TokenName(ACode(54)) == TypeFor(Word(54));
    case 55 => assert TokenName(ACode(55)) == TypeFor(Word(55));
    case 56 => assert TokenName(ACode(56)) == TypeFor(Word(56));
  }

  lemma Codes19(i: nat)
    requires 57 <= i < 60
    ensures TokenName(ACode(i)) == TypeFor(Word(i))
  {
    match i
    case 57 => assert TokenName(ACode(57)) == TypeFor(Word(57));
    case 58 => assert TokenName(ACode(58)) == TypeFor(Word(58));
    case 59 => assert TokenName(ACode(59)) == TypeFor(Word(59));
  }

  lemma Codes20(i: nat)
    requires 60 <= i < 63
    ensures TokenName(ACode(i)) == TypeFor(Word(i))
  {
    match i
    case 60 => assert TokenName(ACode(60)) == TypeFor(Word(60));
    case 61 => assert TokenName(ACode(61)) == TypeFor(Word(61));
    case 62 => assert TokenName(ACode(62)) == TypeFor(Word(62));
  }

  lemma Codes21(i: nat)
    requires 63 <= i < 66
    ensures TokenName(ACode(i)) == TypeFor(Word(i))
  {
    match i
    case 63 => assert TokenName(ACode(63)) == TypeFor(Word(63));
    case 64 => assert TokenName(ACode(64)) == TypeFor(Word(64));
    case 65 => assert TokenName(ACode(65)) == TypeFor(Word(65));
  }

  lemma Codes22(i: nat)
    requires 66 <= i < 69
    ensures TokenName(ACode(i)) == TypeFor(Word(i))
  {
    match i
    case 66 => assert TokenName(ACode(66)) == TypeFor(Word(66));
    case 67 => assert TokenName(ACode(67)) == TypeFor(Word(67));
    case 68 => assert TokenName(ACode(68)) == TypeFor(Word(68));
  }

  lemma Codes23(i: nat)
    requires 69 <= i < 72
    ensures TokenName(ACode(i)) == TypeFor(Word(i))
  {
    match i
    case 69 => assert TokenName(ACode(69)) == TypeFor(Word(69));
    case 70 => assert TokenName(ACode(70)) == TypeFor(Word(70));
    case 71 => assert TokenName(ACode(71)) == TypeFor(Word(71));
  }

  lemma Codes24(i: nat)
    requires 72 <= i < 75
    ensures TokenName(ACode(i)) == TypeFor(Word(i))
  {
    match i
    case 72 => assert TokenName(ACode(72)) == TypeFor(Word(72));
    case 73 => assert TokenName(ACode(73)) == TypeFor(Word(73));
    case 74 => assert TokenName(ACode(74)) == TypeFor(Word(74));
  }

  lemma Codes25(i: nat)
    requires 75 <= i < 78
    ensures TokenName(ACode(i)) == TypeFor(Word(i))
  {
    match i
    case 75 => assert TokenName(ACode(75)) == TypeFor(Word(75));
    case 76 => assert TokenName(ACode(76)) == TypeFor(Word(76));
    case 77 => assert TokenName(ACode(77)) == TypeFor(Word(77));
  }

  lemma Codes26(i: nat)
    requires 78 <= i < 81
    ensures TokenName(ACode(i)) == TypeFor(Word(i))
  {
    match i
    case 78 => assert TokenName(ACode(78)) == TypeFor(Word(78));
    case 79 => assert TokenName(ACode(79)) == TypeFor(Word(79));
    case 80 => assert TokenName(ACode(80)) == TypeFor(Word(80));
  }

  lemma Codes27(i: nat)
    requires 81 <= i < 84
    ensures TokenName(ACode(i)) == TypeFor(Word(i))
  {
    match i
    case 81 => assert TokenName(ACode(81)) == TypeFor(Word(81));
    case 82 => assert TokenName(ACode(82)) == TypeFor(Word(82));
    case 83 => assert TokenName(ACode(83)) == TypeFor(Word(83));
  }

  lemma Codes28(i: nat)
    requires 84 <= i < 87
    ensures TokenName(ACode(i)) == TypeFor(Word(i))
  {
    match i
    case 84 => assert TokenName(ACode(84)) == TypeFor(Word(84));
    case 85 => assert TokenName(ACode(85)) == TypeFor(Word(85));
    case 86 => assert TokenName(ACode(86)) == TypeFor(Word(86));
  }

  lemma Codes29(i: nat)
    requires 87 <= i < 90
    ensures TokenName(ACode(i)) == TypeFor(Word(i))
  {
    match i
    case 87 => assert TokenName(ACode(87)) == TypeFor(Word(87));
    case 88 => assert TokenName(ACode(88)) == TypeFor(Word(88));
    case 89 => assert TokenName(ACode(89)) == TypeFor(Word(89));
  }

  lemma Codes30(i: nat)
    requires 90 <= i < 93
    ensures TokenName(ACode(i)) == TypeFor(Word(i))
  {
    match i
    case 90 => assert TokenName(ACode(90)) == TypeFor(Word(90));
    case 91 => assert TokenName(ACode(91)) == TypeFor(Word(91));
    case 92 => assert TokenName(ACode(92)) == TypeFor(Word(92));
  }

  lemma Codes31(i: nat)
    requires 93 <= i < 96
    ensures TokenName(ACode(i)) == TypeFor(Word(i))
  {
    match i
    case 93 => assert TokenName(ACode(93)) == TypeFor(Word(93));
    case 94 => assert TokenName(ACode(94)) == TypeFor(Word(94));
    case 95 => assert TokenName(ACode(95)) == TypeFor(Word(95));
  }

  lemma Codes32(i: nat)
    requires 96 <= i < 99
    ensures TokenName(ACode(i)) == TypeFor(Word(i))
  {
    match i
    case 96 => assert TokenName(ACode(96)) == TypeFor(Word(96));
    case 97 => assert TokenName(ACode(97)) == TypeFor(Word(97));
    case 98 => assert TokenName(ACode(98)) == TypeFor(Word(98));
  }

  lemma Codes33(i: nat)
    requires 99 <= i < 102
    ensures TokenName(ACode(i)) == TypeFor(Word(i))
  {
    match i
    case 99 => assert TokenName(ACode(99)) == TypeFor(Word(99));
    case 100 => assert TokenName(ACode(100)) == TypeFor(Word(100));
    case 101 => assert TokenName(ACode(101)) == TypeFor(Word(101));
  }

  lemma Codes34(i: nat)
    requires 102 <= i < 105
    ensures TokenName(ACode(i)) == TypeFor(Word(i))
  {
    match i
    case 102 => assert TokenName(ACode(102)) == TypeFor(Word(102));
    case 103 => assert TokenName(ACode(103)) == TypeFor(Word(103));
    case 104 => assert TokenName(ACode(104)) == TypeFor(Word(104));
  }

  lemma Codes35(i: nat)
    requires 105 <= i < 108
    ensures TokenName(ACode(i)) == TypeFor(Word(i))
  {
    match i
    case 105 => assert TokenName(ACode(105)) == TypeFor(Word(105));
    case 106 => assert TokenName(ACode(106)) == TypeFor(Word(106));
    case 107 => assert TokenName(ACode(107)) == TypeFor(Word(107));
  }

  lemma Codes36(i: nat)
    requires 108 <= i < 111
    ensures TokenName(ACode(i)) == TypeFor(Word(i))
  {
    match i
    case 108 => assert TokenName(ACode(108)) == TypeFor(Word(108));
    case 109 => assert TokenName(ACode(109)) == TypeFor(Word(109));
    case 110 => assert TokenName(ACode(110)) == TypeFor(Word(110));
  }

  lemma Codes37(i: nat)
    requires 111 <= i < 114
    ensures TokenName(ACode(i)) == TypeFor(Word(i))
  {
    match i
    case 111 => assert TokenName(ACode(111)) == TypeFor(Word(111));
    case 112 => assert TokenName(ACode(112)) == TypeFor(Word(112));
    case 113 => assert TokenName(ACode(113)) == TypeFor(Word(113));
  }

  lemma Codes38(i: nat)
    requires 114 <= i < 117
    ensures TokenName(ACode(i)) == TypeFor(Word(i))
  {
    match i
    case 114 => assert TokenName(ACode(114)) == TypeFor(Word(114));
    case 115 => assert TokenName(ACode(115)) == TypeFor(Word(115));
    case 116 => assert TokenName(ACode(116)) == TypeFor(Word(116));
  }

  lemma Codes39(i: nat)
    requires 117 <= i < 120
    ensures TokenName(ACode(i)) == TypeFor(Word(i))
  {
    match i
    case 117 => assert TokenName(ACode(117)) == TypeFor(Word(117));
    case 118 => assert TokenName(ACode(118)) == TypeFor(Word(118));
    case 119 => assert TokenName(ACode(119)) == TypeFor(Word(119));
  }

  lemma Codes40(i: nat)
    requires 120 <= i < 123
    ensures TokenName(ACode(i)) == TypeFor(Word(i))
  {
    match i
    case 120 => assert TokenName(ACode(120)) == TypeFor(Word(120));
    case 121 => assert TokenName(ACode(121)) == TypeFor(Word(121));
    case 122 => assert TokenName(ACode(122)) == TypeFor(Word(122));
  }

  lemma Codes41(i: nat)
    requires 123 <= i < 124
    ensures TokenName(ACode(i)) == TypeFor(Word(i))
  {
    match i
    case 123 => assert TokenName(ACode(123)) == TypeFor(Word(123));
  }

  /** The code of each keyword is the one that parse.h gives to the token type it calls for. */
  lemma CodeIsNamed(i: nat)
    requires i < KEYWORDS
    ensures TokenName(ACode(i)) == TypeFor(Word(i))
  {
    hide TokenName, ACode, TypeFor, Word;
    if i < 3 {
      Codes0(i);
    } else if i < 6 {
      Codes1(i);
    } else if i < 9 {
      Codes2(i);
    } else if i < 12 {
      Codes3(i);
    } else if i < 15 {
      Codes4(i);
    } else if i < 18 {
      Codes5(i);
    } else if i < 21 {
      Codes6(i);
    } else if i < 24 {
      Codes7(i);
    } else if i < 27 {
      Codes8(i);
    } else if i < 30 {
      Codes9(i);
    } else if i < 33 {
      Codes10(i);
    } else if i < 36 {
      Codes11(i);
    } else if i < 39 {
      Codes12(i);
    } else if i < 42 {
      Codes13(i);
    } else if i < 45 {
      Codes14(i);
    } else if i < 48 {
      Codes15(i);
    } else if i < 51 {
      Codes16(i);
    } else if i < 54 {
      Codes17(i);
    } else if i < 57 {
      Codes18(i);
    } else if i < 60 {
      Codes19(i);
    } else if i < 63 {
      Codes20(i);
    } else if i < 66 {
      Codes21(i);
    } else if i < 69 {
      Codes22(i);
    } else if i < 72 {
      Codes23(i);
    } else if i < 75 {
      Codes24(i);
    } else if i < 78 {
      Codes25(i);
    } else if i < 81 {
      Codes26(i);
    } else if i < 84 {
      Codes27(i);
    } else if i < 87 {
      Codes28(i);
    } else if i < 90 {
      Codes29(i);
    } else if i < 93 {
      Codes30(i);
    } else if i < 96 {
      Codes31(i);
    } else if i < 99 {
      Codes32(i);
    } else if i < 102 {
      Codes33(i);
    } else if i < 105 {
      Codes34(i);
    } else if i < 108 {
      Codes35(i);
    } else if i < 111 {
      Codes36(i);
    } else if i < 114 {
      Codes37(i);
    } else if i < 117 {
      Codes38(i);
    } else if i < 120 {
      Codes39(i);
    } else if i < 123 {
      Codes40(i);
    } else {
      Codes41(i);
    }
  }

  lemma IdIsNamed()
    ensures TokenName(TK_ID) == "ID"
  {
  }
}
