/** Row by row: the generated tables hold the keywords, each in the bucket it hashes to. */
module KeywordRows {
  import opened KeywordTables
  import opened KeywordHash

  // ----- the packed text spells the keywords -----

  lemma Words0()
    ensures Spells(0, "REINDEX") && Spells(1, "INDEXED") && Spells(2, "INDEX") && Spells(3, "DESC")
    ensures Spells(4, "ESCAPE") && Spells(5, "EACH")
  {
  }

  lemma Words1()
    ensures Spells(6, "CHECK") && Spells(7, "KEY") && Spells(8, "BEFORE") && Spells(9, "FOREIGN") && Spells(10, "FOR")
    ensures Spells(11, "IGNORE")
  {
  }

  lemma Words2()
    ensures Spells(12, "REGEXP") && Spells(13, "EXPLAIN") && Spells(14, "INSTEAD") && Spells(15, "ADD")
    ensures Spells(16, "DATABASE") && Spells(17, "AS")
  {
  }

  lemma Words3()
    ensures Spells(18, "SELECT") && Spells(19, "TABLE") && Spells(20, "LEFT") && Spells(21, "THEN")
    ensures Spells(22, "END") && Spells(23, "DEFERRABLE")
  {
  }

  lemma Words4()
    ensures Spells(24, "ELSE") && Spells(25, "EXCEPT") && Spells(26, "TRANSACTION") && Spells(27, "ACTION")
    ensures Spells(28, "ON") && Spells(29, "NATURAL")
  {
  }

  lemma Words5()
    ensures Spells(30, "ALTER") && Spells(31, "RAISE") && Spells(32, "EXCLUSIVE") && Spells(33, "EXISTS")
    ensures Spells(34, "SAVEPOINT") && Spells(35, "INTERSECT")
  {
  }

  lemma Words6()
    ensures Spells(36, "TRIGGER") && Spells(37, "REFERENCES") && Spells(38, "CONSTRAINT") && Spells(39, "INTO")
    ensures Spells(40, "OFFSET") && Spells(41, "OF")
  {
  }

  lemma Words7()
    ensures Spells(42, "SET") && Spells(43, "TEMPORARY") && Spells(44, "TEMP") && Spells(45, "OR")
    ensures Spells(46, "UNIQUE") && Spells(47, "QUERY")
  {
  }

  lemma Words8()
    ensures Spells(48, "WITHOUT") && Spells(49, "WITH") && Spells(50, "OUTER") && Spells(51, "RELEASE")
    ensures Spells(52, "ATTACH") && Spells(53, "HAVING")
  {
  }

  lemma Words9()
    ensures Spells(54, "GROUP") && Spells(55, "UPDATE") && Spells(56, "BEGIN") && Spells(57, "INNER")
    ensures Spells(58, "RECURSIVE") && Spells(59, "BETWEEN")
  {
  }

  lemma Words10()
    ensures Spells(60, "NOTNULL") && Spells(61, "NOT") && Spells(62, "NO") && Spells(63, "NULL") && Spells(64, "LIKE")
    ensures Spells(65, "CASCADE")
  {
  }

  lemma Words11()
    ensures Spells(66, "ASC") && Spells(67, "DELETE") && Spells(68, "CASE") && Spells(69, "COLLATE")
    ensures Spells(70, "CREATE") && Spells(71, "CURRENT_DATE")
  {
  }

  lemma Words12()
    ensures Spells(72, "DETACH") && Spells(73, "IMMEDIATE") && Spells(74, "JOIN") && Spells(75, "INSERT")
    ensures Spells(76, "MATCH") && Spells(77, "PLAN")
  {
  }

  lemma Words13()
    ensures Spells(78, "ANALYZE") && Spells(79, "PRAGMA") && Spells(80, "ABORT") && Spells(81, "VALUES")
    ensures Spells(82, "VIRTUAL") && Spells(83, "LIMIT")
  {
  }

  lemma Words14()
    ensures Spells(84, "WHEN") && Spells(85, "WHERE") && Spells(86, "RENAME") && Spells(87, "AFTER")
    ensures Spells(88, "REPLACE") && Spells(89, "AND")
  {
  }

  lemma Words15()
    ensures Spells(90, "DEFAULT") && Spells(91, "AUTOINCREMENT") && Spells(92, "TO") && Spells(93, "IN")
    ensures Spells(94, "CAST") && Spells(95, "COLUMN")
  {
  }

  lemma Words16()
    ensures Spells(96, "COMMIT") && Spells(97, "CONFLICT") && Spells(98, "CROSS") && Spells(99, "CURRENT_TIMESTAMP")
    ensures Spells(100, "CURRENT_TIME") && Spells(101, "PRIMARY")
  {
  }

  lemma Words17()
    ensures Spells(102, "DEFERRED") && Spells(103, "DISTINCT") && Spells(104, "IS") && Spells(105, "DROP")
    ensures Spells(106, "FAIL") && Spells(107, "FROM")
  {
  }

  lemma Words18()
    ensures Spells(108, "FULL") && Spells(109, "GLOB") && Spells(110, "BY") && Spells(111, "IF")
    ensures Spells(112, "ISNULL") && Spells(113, "ORDER")
  {
  }

  lemma Words19()
    ensures Spells(114, "RESTRICT") && Spells(115, "RIGHT") && Spells(116, "ROLLBACK") && Spells(117, "ROW")
    ensures Spells(118, "UNION") && Spells(119, "USING")
  {
  }

  lemma Words20()
    ensures Spells(120, "VACUUM") && Spells(121, "VIEW") && Spells(122, "INITIALLY") && Spells(123, "ALL")
  {
  }

  // ----- the hash values of the keywords -----

  lemma Mixes0()
    ensures Mix(114, 120, 7) == 40 && Mix(105, 100, 7) == 16 && Mix(105, 120, 5) == 74 && Mix(100, 99, 4) == 62
    ensures Mix(101, 101, 6) == 62 && Mix(101, 104, 4) == 41 && Mix(99, 107, 5) == 73 && Mix(107, 121, 3) == 69
    ensures Mix(98, 101, 6) == 34 && Mix(102, 110, 7) == 86 && Mix(102, 114, 3) == 78 && Mix(105, 101, 6) == 14
    ensures Mix(114, 112, 6) == 31 && Mix(101, 110, 7) == 90 && Mix(105, 100, 7) == 16 && Mix(97, 100, 3) == 44
    ensures Mix(100, 101, 8) == 56 && Mix(97, 115, 2) == 96 && Mix(115, 116, 6) == 23 && Mix(116, 101, 5) == 123
    ensures Mix(108, 116, 4) == 105 && Mix(116, 110, 4) == 31 && Mix(101, 100, 3) == 60 && Mix(100, 101, 10) == 54
    ensures Mix(101, 101, 4) == 64 && Mix(101, 116, 6) == 79 && Mix(116, 110, 11) == 18 && Mix(97, 110, 6) == 73
    ensures Mix(111, 110, 2) == 117 && Mix(110, 108, 7) == 124 && Mix(97, 114, 5) == 88
  {
  }

  lemma Mixes1()
    ensures Mix(114, 101, 5) == 99 && Mix(101, 101, 9) == 51 && Mix(101, 115, 6) == 76 && Mix(115, 116, 9) == 26
    ensures Mix(105, 116, 9) == 114 && Mix(116, 114, 7) == 2 && Mix(114, 115, 10) == 28 && Mix(99, 116, 10) == 91
    ensures Mix(105, 111, 4) == 110 && Mix(111, 116, 6) == 103 && Mix(111, 102, 2) == 13 && Mix(115, 116, 3) == 20
    ensures Mix(116, 121, 9) == 51 && Mix(116, 112, 4) == 5 && Mix(111, 114, 2) == 105 && Mix(117, 101, 6) == 126
    ensures Mix(113, 121, 5) == 43 && Mix(119, 116, 7) == 8 && Mix(119, 104, 4) == 97 && Mix(111, 114, 5) == 112
    ensures Mix(114, 101, 7) == 97 && Mix(97, 104, 6) == 59 && Mix(104, 103, 6) == 20 && Mix(103, 112, 5) == 74
    ensures Mix(117, 101, 6) == 126 && Mix(98, 110, 5) == 72 && Mix(105, 114, 5) == 120 && Mix(114, 101, 9) == 111
    ensures Mix(98, 110, 7) == 70 && Mix(110, 108, 7) == 124 && Mix(110, 116, 3) == 104
  {
  }

  lemma Mixes2()
    ensures Mix(110, 111, 2) == 120 && Mix(110, 108, 4) == 121 && Mix(108, 101, 4) == 28 && Mix(99, 101, 7) == 37
    ensures Mix(97, 99, 3) == 47 && Mix(100, 101, 6) == 58 && Mix(99, 101, 4) == 40 && Mix(99, 101, 7) == 37
    ensures Mix(99, 101, 6) == 38 && Mix(99, 101, 12) == 48 && Mix(100, 104, 6) == 47 && Mix(105, 101, 9) == 3
    ensures Mix(106, 110, 4) == 103 && Mix(105, 116, 6) == 0 && Mix(109, 104, 5) == 10 && Mix(112, 110, 4) == 15
    ensures Mix(97, 101, 7) == 45 && Mix(112, 97, 6) == 102 && Mix(97, 116, 5) == 94 && Mix(118, 115, 6) == 8
    ensures Mix(118, 108, 7) == 28 && Mix(108, 116, 5) == 106 && Mix(119, 110, 4) == 19 && Mix(119, 101, 5) == 119
    ensures Mix(114, 101, 6) == 98 && Mix(97, 114, 5) == 88 && Mix(114, 101, 7) == 97 && Mix(97, 100, 3) == 44
    ensures Mix(100, 116, 7) == 76 && Mix(97, 116, 13) == 86 && Mix(116, 111, 2) == 32
  {
  }

  lemma Mixes3()
    ensures Mix(105, 110, 2) == 109 && Mix(99, 116, 4) == 85 && Mix(99, 110, 6) == 65 && Mix(99, 116, 6) == 87
    ensures Mix(99, 116, 8) == 89 && Mix(99, 115, 5) == 81 && Mix(99, 112, 17) == 78 && Mix(99, 101, 12) == 48
    ensures Mix(112, 121, 7) == 45 && Mix(100, 100, 8) == 53 && Mix(100, 116, 8) == 69 && Mix(105, 115, 2) == 1
    ensures Mix(100, 112, 4) == 69 && Mix(102, 108, 4) == 89 && Mix(102, 109, 4) == 92 && Mix(102, 108, 4) == 89
    ensures Mix(103, 98, 4) == 63 && Mix(98, 121, 2) == 98 && Mix(105, 102, 2) == 21 && Mix(105, 108, 6) == 103
    ensures Mix(111, 114, 5) == 112 && Mix(114, 116, 8) == 29 && Mix(114, 116, 5) == 18 && Mix(114, 107, 8) == 2
    ensures Mix(114, 119, 3) == 47 && Mix(117, 110, 5) == 28 && Mix(117, 103, 5) == 101 && Mix(118, 109, 6) == 26
    ensures Mix(118, 119, 4) == 58 && Mix(105, 121, 9) == 71 && Mix(97, 108, 3) == 68
  {
  }

  lemma Hashes0()
    ensures HashOf('R', 'X', 7) == 40 && HashOf('I', 'D', 7) == 16 && HashOf('I', 'X', 5) == 74
    ensures HashOf('D', 'C', 4) == 62 && HashOf('E', 'E', 6) == 62 && HashOf('E', 'H', 4) == 41
    ensures HashOf('C', 'K', 5) == 73 && HashOf('K', 'Y', 3) == 69 && HashOf('B', 'E', 6) == 34
    ensures HashOf('F', 'N', 7) == 86 && HashOf('F', 'R', 3) == 78 && HashOf('I', 'E', 6) == 14
  {
    Mixes0();
    hide Mix;
  }

  lemma Hashes1()
    ensures HashOf('R', 'P', 6) == 31 && HashOf('E', 'N', 7) == 90 && HashOf('I', 'D', 7) == 16
    ensures HashOf('A', 'D', 3) == 44 && HashOf('D', 'E', 8) == 56 && HashOf('A', 'S', 2) == 96
    ensures HashOf('S', 'T', 6) == 23 && HashOf('T', 'E', 5) == 123 && HashOf('L', 'T', 4) == 105
    ensures HashOf('T', 'N', 4) == 31 && HashOf('E', 'D', 3) == 60 && HashOf('D', 'E', 10) == 54
  {
    Mixes0();
    hide Mix;
  }

  lemma Hashes2()
    ensures HashOf('E', 'E', 4) == 64 && HashOf('E', 'T', 6) == 79 && HashOf('T', 'N', 11) == 18
    ensures HashOf('A', 'N', 6) == 73 && HashOf('O', 'N', 2) == 117 && HashOf('N', 'L', 7) == 124
    ensures HashOf('A', 'R', 5) == 88 && HashOf('R', 'E', 5) == 99 && HashOf('E', 'E', 9) == 51
    ensures HashOf('E', 'S', 6) == 76 && HashOf('S', 'T', 9) == 26 && HashOf('I', 'T', 9) == 114
  {
    Mixes0();
    Mixes1();
    hide Mix;
  }

  lemma Hashes3()
    ensures HashOf('T', 'R', 7) == 2 && HashOf('R', 'S', 10) == 28 && HashOf('C', 'T', 10) == 91
    ensures HashOf('I', 'O', 4) == 110 && HashOf('O', 'T', 6) == 103 && HashOf('O', 'F', 2) == 13
    ensures HashOf('S', 'T', 3) == 20 && HashOf('T', 'Y', 9) == 51 && HashOf('T', 'P', 4) == 5
    ensures HashOf('O', 'R', 2) == 105 && HashOf('U', 'E', 6) == 126 && HashOf('Q', 'Y', 5) == 43
  {
    Mixes1();
    hide Mix;
  }

  lemma Hashes4()
    ensures HashOf('W', 'T', 7) == 8 && HashOf('W', 'H', 4) == 97 && HashOf('O', 'R', 5) == 112
    ensures HashOf('R', 'E', 7) == 97 && HashOf('A', 'H', 6) == 59 && HashOf('H', 'G', 6) == 20
    ensures HashOf('G', 'P', 5) == 74 && HashOf('U', 'E', 6) == 126 && HashOf('B', 'N', 5) == 72
    ensures HashOf('I', 'R', 5) == 120 && HashOf('R', 'E', 9) == 111 && HashOf('B', 'N', 7) == 70
  {
    Mixes1();
    hide Mix;
  }

  lemma Hashes5()
    ensures HashOf('N', 'L', 7) == 124 && HashOf('N', 'T', 3) == 104 && HashOf('N', 'O', 2) == 120
    ensures HashOf('N', 'L', 4) == 121 && HashOf('L', 'E', 4) == 28 && HashOf('C', 'E', 7) == 37
    ensures HashOf('A', 'C', 3) == 47 && HashOf('D', 'E', 6) == 58 && HashOf('C', 'E', 4) == 40
    ensures HashOf('C', 'E', 7) == 37 && HashOf('C', 'E', 6) == 38 && HashOf('C', 'E', 12) == 48
  {
    Mixes1();
    Mixes2();
    hide Mix;
  }

  lemma Hashes6()
    ensures HashOf('D', 'H', 6) == 47 && HashOf('I', 'E', 9) == 3 && HashOf('J', 'N', 4) == 103
    ensures HashOf('I', 'T', 6) == 0 && HashOf('M', 'H', 5) == 10 && HashOf('P', 'N', 4) == 15
    ensures HashOf('A', 'E', 7) == 45 && HashOf('P', 'A', 6) == 102 && HashOf('A', 'T', 5) == 94
    ensures HashOf('V', 'S', 6) == 8 && HashOf('V', 'L', 7) == 28 && HashOf('L', 'T', 5) == 106
  {
    Mixes2();
    hide Mix;
  }

  lemma Hashes7()
    ensures HashOf('W', 'N', 4) == 19 && HashOf('W', 'E', 5) == 119 && HashOf('R', 'E', 6) == 98
    ensures HashOf('A', 'R', 5) == 88 && HashOf('R', 'E', 7) == 97 && HashOf('A', 'D', 3) == 44
    ensures HashOf('D', 'T', 7) == 76 && HashOf('A', 'T', 13) == 86 && HashOf('T', 'O', 2) == 32
    ensures HashOf('I', 'N', 2) == 109 && HashOf('C', 'T', 4) == 85 && HashOf('C', 'N', 6) == 65
  {
    Mixes2();
    Mixes3();
    hide Mix;
  }

  lemma Hashes8()
    ensures HashOf('C', 'T', 6) == 87 && HashOf('C', 'T', 8) == 89 && HashOf('C', 'S', 5) == 81
    ensures HashOf('C', 'P', 17) == 78 && HashOf('C', 'E', 12) == 48 && HashOf('P', 'Y', 7) == 45
    ensures HashOf('D', 'D', 8) == 53 && HashOf('D', 'T', 8) == 69 && HashOf('I', 'S', 2) == 1
    ensures HashOf('D', 'P', 4) == 69 && HashOf('F', 'L', 4) == 89 && HashOf('F', 'M', 4) == 92
  {
    Mixes3();
    hide Mix;
  }

  lemma Hashes9()
    ensures HashOf('F', 'L', 4) == 89 && HashOf('G', 'B', 4) == 63 && HashOf('B', 'Y', 2) == 98
    ensures HashOf('I', 'F', 2) == 21 && HashOf('I', 'L', 6) == 103 && HashOf('O', 'R', 5) == 112
    ensures HashOf('R', 'T', 8) == 29 && HashOf('R', 'T', 5) == 18 && HashOf('R', 'K', 8) == 2
    ensures HashOf('R', 'W', 3) == 47 && HashOf('U', 'N', 5) == 28 && HashOf('U', 'G', 5) == 101
  {
    Mixes3();
    hide Mix;
  }

  lemma Hashes10()
    ensures HashOf('V', 'M', 6) == 26 && HashOf('V', 'W', 4) == 58 && HashOf('I', 'Y', 9) == 71
    ensures HashOf('A', 'L', 3) == 68
  {
    Mixes3();
    hide Mix;
  }

  // ----- every keyword is in its bucket -----

  lemma Rows0()
    ensures Hashed(0) && Hashed(1) && Hashed(2) && Hashed(3) && Hashed(4) && Hashed(5) && Hashed(6) && Hashed(7)
    ensures Hashed(8) && Hashed(9) && Hashed(10) && Hashed(11)
  {
    Words0();
    Words1();
    Hashes0();
    hide Spells, Text, HashOf, Hashed;
    Row(0, "REINDEX", 'R', 'X', 7);
    Row(1, "INDEXED", 'I', 'D', 7);
    Row(2, "INDEX", 'I', 'X', 5);
    Row(3, "DESC", 'D', 'C', 4);
    Row(4, "ESCAPE", 'E', 'E', 6);
    Row(5, "EACH", 'E', 'H', 4);
    Row(6, "CHECK", 'C', 'K', 5);
    Row(7, "KEY", 'K', 'Y', 3);
    Row(8, "BEFORE", 'B', 'E', 6);
    Row(9, "FOREIGN", 'F', 'N', 7);
    Row(10, "FOR", 'F', 'R', 3);
    Row(11, "IGNORE", 'I', 'E', 6);
  }

  lemma Rows1()
    ensures Hashed(12) && Hashed(13) && Hashed(14) && Hashed(15) && Hashed(16) && Hashed(17) && Hashed(18)
    ensures Hashed(19) && Hashed(20) && Hashed(21) && Hashed(22) && Hashed(23)
  {
    Words2();
    Words3();
    Hashes1();
    hide Spells, Text, HashOf, Hashed;
    Row(12, "REGEXP", 'R', 'P', 6);
    Row(13, "EXPLAIN", 'E', 'N', 7);
    Row(14, "INSTEAD", 'I', 'D', 7);
    Row(15, "ADD", 'A', 'D', 3);
    Row(16, "DATABASE", 'D', 'E', 8);
    Row(17, "AS", 'A', 'S', 2);
    Row(18, "SELECT", 'S', 'T', 6);
    Row(19, "TABLE", 'T', 'E', 5);
    Row(20, "LEFT", 'L', 'T', 4);
    Row(21, "THEN", 'T', 'N', 4);
    Row(22, "END", 'E', 'D', 3);
    Row(23, "DEFERRABLE", 'D', 'E', 10);
  }

  lemma Rows2()
    ensures Hashed(24) && Hashed(25) && Hashed(26) && Hashed(27) && Hashed(28) && Hashed(29) && Hashed(30)
    ensures Hashed(31) && Hashed(32) && Hashed(33) && Hashed(34) && Hashed(35)
  {
    Words4();
    Words5();
    Hashes2();
    hide Spells, Text, HashOf, Hashed;
    Row(24, "ELSE", 'E', 'E', 4);
    Row(25, "EXCEPT", 'E', 'T', 6);
    Row(26, "TRANSACTION", 'T', 'N', 11);
    Row(27, "ACTION", 'A', 'N', 6);
    Row(28, "ON", 'O', 'N', 2);
    Row(29, "NATURAL", 'N', 'L', 7);
    Row(30, "ALTER", 'A', 'R', 5);
    Row(31, "RAISE", 'R', 'E', 5);
    Row(32, "EXCLUSIVE", 'E', 'E', 9);
    Row(33, "EXISTS", 'E', 'S', 6);
    Row(34, "SAVEPOINT", 'S', 'T', 9);
    Row(35, "INTERSECT", 'I', 'T', 9);
  }

  lemma Rows3()
    ensures Hashed(36) && Hashed(37) && Hashed(38) && Hashed(39) && Hashed(40) && Hashed(41) && Hashed(42)
    ensures Hashed(43) && Hashed(44) && Hashed(45) && Hashed(46) && Hashed(47)
  {
    Words6();
    Words7();
    Hashes3();
    hide Spells, Text, HashOf, Hashed;
    Row(36, "TRIGGER", 'T', 'R', 7);
    Row(37, "REFERENCES", 'R', 'S', 10);
    Row(38, "CONSTRAINT", 'C', 'T', 10);
    Row(39, "INTO", 'I', 'O', 4);
    Row(40, "OFFSET", 'O', 'T', 6);
    Row(41, "OF", 'O', 'F', 2);
    Row(42, "SET", 'S', 'T', 3);
    Row(43, "TEMPORARY", 'T', 'Y', 9);
    Row(44, "TEMP", 'T', 'P', 4);
    Row(45, "OR", 'O', 'R', 2);
    Row(46, "UNIQUE", 'U', 'E', 6);
    Row(47, "QUERY", 'Q', 'Y', 5);
  }

  lemma Rows4()
    ensures Hashed(48) && Hashed(49) && Hashed(50) && Hashed(51) && Hashed(52) && Hashed(53) && Hashed(54)
    ensures Hashed(55) && Hashed(56) && Hashed(57) && Hashed(58) && Hashed(59)
  {
    Words8();
    Words9();
    Hashes4();
    hide Spells, Text, HashOf, Hashed;
    Row(48, "WITHOUT", 'W', 'T', 7);
    Row(49, "WITH", 'W', 'H', 4);
    Row(50, "OUTER", 'O', 'R', 5);
    Row(51, "RELEASE", 'R', 'E', 7);
    Row(52, "ATTACH", 'A', 'H', 6);
    Row(53, "HAVING", 'H', 'G', 6);
    Row(54, "GROUP", 'G', 'P', 5);
    Row(55, "UPDATE", 'U', 'E', 6);
    Row(56, "BEGIN", 'B', 'N', 5);
    Row(57, "INNER", 'I', 'R', 5);
    Row(58, "RECURSIVE", 'R', 'E', 9);
    Row(59, "BETWEEN", 'B', 'N', 7);
  }

  lemma Rows5()
    ensures Hashed(60) && Hashed(61) && Hashed(62) && Hashed(63) && Hashed(64) && Hashed(65) && Hashed(66)
    ensures Hashed(67) && Hashed(68) && Hashed(69) && Hashed(70) && Hashed(71)
  {
    Words10();
    Words11();
    Hashes5();
    hide Spells, Text, HashOf, Hashed;
    Row(60, "NOTNULL", 'N', 'L', 7);
    Row(61, "NOT", 'N', 'T', 3);
    Row(62, "NO", 'N', 'O', 2);
    Row(63, "NULL", 'N', 'L', 4);
    Row(64, "LIKE", 'L', 'E', 4);
    Row(65, "CASCADE", 'C', 'E', 7);
    Row(66, "ASC", 'A', 'C', 3);
    Row(67, "DELETE", 'D', 'E', 6);
    Row(68, "CASE", 'C', 'E', 4);
    Row(69, "COLLATE", 'C', 'E', 7);
    Row(70, "CREATE", 'C', 'E', 6);
    Row(71, "CURRENT_DATE", 'C', 'E', 12);
  }

  lemma Rows6()
    ensures Hashed(72) && Hashed(73) && Hashed(74) && Hashed(75) && Hashed(76) && Hashed(77) && Hashed(78)
    ensures Hashed(79) && Hashed(80) && Hashed(81) && Hashed(82) && Hashed(83)
  {
    Words12();
    Words13();
    Hashes6();
    hide Spells, Text, HashOf, Hashed;
    Row(72, "DETACH", 'D', 'H', 6);
    Row(73, "IMMEDIATE", 'I', 'E', 9);
    Row(74, "JOIN", 'J', 'N', 4);
    Row(75, "INSERT", 'I', 'T', 6);
    Row(76, "MATCH", 'M', 'H', 5);
    Row(77, "PLAN", 'P', 'N', 4);
    Row(78, "ANALYZE", 'A', 'E', 7);
    Row(79, "PRAGMA", 'P', 'A', 6);
    Row(80, "ABORT", 'A', 'T', 5);
    Row(81, "VALUES", 'V', 'S', 6);
    Row(82, "VIRTUAL", 'V', 'L', 7);
    Row(83, "LIMIT", 'L', 'T', 5);
  }

  lemma Rows7()
    ensures Hashed(84) && Hashed(85) && Hashed(86) && Hashed(87) && Hashed(88) && Hashed(89) && Hashed(90)
    ensures Hashed(91) && Hashed(92) && Hashed(93) && Hashed(94) && Hashed(95)
  {
    Words14();
    Words15();
    Hashes7();
    hide Spells, Text, HashOf, Hashed;
    Row(84, "WHEN", 'W', 'N', 4);
    Row(85, "WHERE", 'W', 'E', 5);
    Row(86, "RENAME", 'R', 'E', 6);
    Row(87, "AFTER", 'A', 'R', 5);
    Row(88, "REPLACE", 'R', 'E', 7);
    Row(89, "AND", 'A', 'D', 3);
    Row(90, "DEFAULT", 'D', 'T', 7);
    Row(91, "AUTOINCREMENT", 'A', 'T', 13);
    Row(92, "TO", 'T', 'O', 2);
    Row(93, "IN", 'I', 'N', 2);
    Row(94, "CAST", 'C', 'T', 4);
    Row(95, "COLUMN", 'C', 'N', 6);
  }

  lemma Rows8()
    ensures Hashed(96) && Hashed(97) && Hashed(98) && Hashed(99) && Hashed(100) && Hashed(101) && Hashed(102)
    ensures Hashed(103) && Hashed(104) && Hashed(105) && Hashed(106) && Hashed(107)
  {
    Words16();
    Words17();
    Hashes8();
    hide Spells, Text, HashOf, Hashed;
    Row(96, "COMMIT", 'C', 'T', 6);
    Row(97, "CONFLICT", 'C', 'T', 8);
    Row(98, "CROSS", 'C', 'S', 5);
    Row(99, "CURRENT_TIMESTAMP", 'C', 'P', 17);
    Row(100, "CURRENT_TIME", 'C', 'E', 12);
    Row(101, "PRIMARY", 'P', 'Y', 7);
    Row(102, "DEFERRED", 'D', 'D', 8);
    Row(103, "DISTINCT", 'D', 'T', 8);
    Row(104, "IS", 'I', 'S', 2);
    Row(105, "DROP", 'D', 'P', 4);
    Row(106, "FAIL", 'F', 'L', 4);
    Row(107, "FROM", 'F', 'M', 4);
  }

  lemma Rows9()
    ensures Hashed(108) && Hashed(109) && Hashed(110) && Hashed(111) && Hashed(112) && Hashed(113) && Hashed(114)
    ensures Hashed(115) && Hashed(116) && Hashed(117) && Hashed(118) && Hashed(119)
  {
    Words18();
    Words19();
    Hashes9();
    hide Spells, Text, HashOf, Hashed;
    Row(108, "FULL", 'F', 'L', 4);
    Row(109, "GLOB", 'G', 'B', 4);
    Row(110, "BY", 'B', 'Y', 2);
    Row(111, "IF", 'I', 'F', 2);
    Row(112, "ISNULL", 'I', 'L', 6);
    Row(113, "ORDER", 'O', 'R', 5);
    Row(114, "RESTRICT", 'R', 'T', 8);
    Row(115, "RIGHT", 'R', 'T', 5);
    Row(116, "ROLLBACK", 'R', 'K', 8);
    Row(117, "ROW", 'R', 'W', 3);
    Row(118, "UNION", 'U', 'N', 5);
    Row(119, "USING", 'U', 'G', 5);
  }

  lemma Rows10()
    ensures Hashed(120) && Hashed(121) && Hashed(122) && Hashed(123)
  {
    Words20();
    Hashes10();
    hide Spells, Text, HashOf, Hashed;
    Row(120, "VACUUM", 'V', 'M', 6);
    Row(121, "VIEW", 'V', 'W', 4);
    Row(122, "INITIALLY", 'I', 'Y', 9);
    Row(123, "ALL", 'A', 'L', 3);
  }

  lemma Linked0(i: nat)
    requires 0 <= i < 16
    ensures Linked(i)
  {
  }

  lemma Linked1(i: nat)
    requires 16 <= i < 32
    ensures Linked(i)
  {
  }

  lemma Linked2(i: nat)
    requires 32 <= i < 48
    ensures Linked(i)
  {
  }

  lemma Linked3(i: nat)
    requires 48 <= i < 64
    ensures Linked(i)
  {
  }

  lemma Linked4(i: nat)
    requires 64 <= i < 80
    ensures Linked(i)
  {
  }

  lemma Linked5(i: nat)
    requires 80 <= i < 96
    ensures Linked(i)
  {
  }

  lemma Linked6(i: nat)
    requires 96 <= i < 112
    ensures Linked(i)
  {
  }

  lemma Linked7(i: nat)
    requires 112 <= i < 124
    ensures Linked(i)
  {
  }

  // ----- no two keywords of a bucket are alike -----

  lemma Twins0()
    ensures Apart(14, 1) && Apart(43, 32) && Apart(54, 2) && Apart(55, 46) && Apart(60, 29) && Apart(69, 65)
    ensures Apart(87, 30) && Apart(88, 51)
  {
    Words0(); Words2(); Words4(); Words5(); Words7(); Words8(); Words9(); Words10(); Words11(); Words14();
    hide Spells, Text, Apart;
    Twin(14, "INSTEAD", 1, "INDEXED", 2);
    Twin(43, "TEMPORARY", 32, "EXCLUSIVE", 0);
    Twin(54, "GROUP", 2, "INDEX", 0);
    Twin(55, "UPDATE", 46, "UNIQUE", 1);
    Twin(60, "NOTNULL", 29, "NATURAL", 1);
    Twin(69, "COLLATE", 65, "CASCADE", 1);
    Twin(87, "AFTER", 30, "ALTER", 1);
    Twin(88, "REPLACE", 51, "RELEASE", 2);
  }

  lemma Twins1()
    ensures Apart(89, 15) && Apart(100, 71) && Apart(101, 78) && Apart(108, 106) && Apart(112, 40) && Apart(113, 50)
    ensures Apart(117, 66)
  {
    Words2(); Words6(); Words8(); Words11(); Words13(); Words14(); Words16(); Words17(); Words18(); Words19();
    hide Spells, Text, Apart;
    Twin(89, "AND", 15, "ADD", 1);
    Twin(100, "CURRENT_TIME", 71, "CURRENT_DATE", 8);
    Twin(101, "PRIMARY", 78, "ANALYZE", 0);
    Twin(108, "FULL", 106, "FAIL", 1);
    Twin(112, "ISNULL", 40, "OFFSET", 0);
    Twin(113, "ORDER", 50, "OUTER", 1);
    Twin(117, "ROW", 66, "ASC", 0);
  }

  lemma Lengths()
    ensures ALen(4) != ALen(3) && ALen(21) != ALen(12) && ALen(27) != ALen(6) && ALen(45) != ALen(20)
    ensures ALen(51) != ALen(49) && ALen(53) != ALen(42) && ALen(62) != ALen(57) && ALen(64) != ALen(37)
    ensures ALen(68) != ALen(0) && ALen(72) != ALen(66) && ALen(74) != ALen(40) && ALen(81) != ALen(48)
    ensures ALen(82) != ALen(37) && ALen(82) != ALen(64) && ALen(88) != ALen(49) && ALen(90) != ALen(33)
    ensures ALen(91) != ALen(9) && ALen(99) != ALen(10) && ALen(103) != ALen(7) && ALen(105) != ALen(7)
    ensures ALen(105) != ALen(103) && ALen(106) != ALen(97) && ALen(108) != ALen(97) && ALen(110) != ALen(86)
    ensures ALen(112) != ALen(74) && ALen(115) != ALen(26) && ALen(116) != ALen(36) && ALen(117) != ALen(72)
    ensures ALen(118) != ALen(37) && ALen(118) != ALen(64) && ALen(118) != ALen(82) && ALen(120) != ALen(34)
    ensures ALen(121) != ALen(67)
  {
  }

  lemma Apart0(i: nat)
    requires 0 <= i < 25
    ensures ApartFrom(i, ANext(i))
  {
    Lengths();
    Twins0();
    hide ALen, DifferAt;
  }

  lemma Apart1(i: nat)
    requires 25 <= i < 50
    ensures ApartFrom(i, ANext(i))
  {
    Lengths();
    Twins0();
    hide ALen, DifferAt;
  }

  lemma Apart2(i: nat)
    requires 50 <= i < 75
    ensures ApartFrom(i, ANext(i))
  {
    Lengths();
    Twins0();
    hide ALen, DifferAt;
  }

  lemma Apart3(i: nat)
    requires 75 <= i < 100
    ensures ApartFrom(i, ANext(i))
  {
    Lengths();
    Twins0();
    Twins1();
    hide ALen, DifferAt;
  }

  lemma Apart4(i: nat)
    requires 100 <= i < 124
    ensures ApartFrom(i, ANext(i))
  {
    Lengths();
    Twins1();
    hide ALen, DifferAt;
  }

  // ----- all rows -----

  lemma Spelled0(i: nat)
    requires 0 <= i < 31
    ensures Spells(i, Word(i))
  {
    Words0();
    Words1();
    Words2();
    Words3();
    Words4();
    Words5();
    hide Spells;
  }

  lemma Spelled1(i: nat)
    requires 31 <= i < 62
    ensures Spells(i, Word(i))
  {
    Words5();
    Words6();
    Words7();
    Words8();
    Words9();
    Words10();
    hide Spells;
  }

  lemma Spelled2(i: nat)
    requires 62 <= i < 93
    ensures Spells(i, Word(i))
  {
    Words10();
    Words11();
    Words12();
    Words13();
    Words14();
    Words15();
    hide Spells;
  }

  lemma Spelled3(i: nat)
    requires 93 <= i < 124
    ensures Spells(i, Word(i))
  {
    Words15();
    Words16();
    Words17();
    Words18();
    Words19();
    Words20();
    hide Spells;
  }

  /** The packed text spells the list. */
  lemma TextIsRight(i: nat)
    requires i < KEYWORDS
    ensures Spells(i, Word(i))
  {
    hide Spells, Word;
    if i < 31 {
      Spelled0(i);
    } else if i < 62 {
      Spelled1(i);
    } else if i < 93 {
      Spelled2(i);
    } else {
      Spelled3(i);
    }
  }

  /** Every keyword hashes to the bucket on record for it. */
  lemma HashIsRight(i: nat)
    requires i < KEYWORDS
    ensures Hashed(i)
  {
    hide Hashed;
    if i < 12 {
      Rows0();
    } else if i < 24 {
      Rows1();
    } else if i < 36 {
      Rows2();
    } else if i < 48 {
      Rows3();
    } else if i < 60 {
      Rows4();
    } else if i < 72 {
      Rows5();
    } else if i < 84 {
      Rows6();
    } else if i < 96 {
      Rows7();
    } else if i < 108 {
      Rows8();
    } else if i < 120 {
      Rows9();
    } else {
      Rows10();
    }
  }

  /** Every keyword is linked into its bucket. */
  lemma ChainIsRight(i: nat)
    requires i < KEYWORDS
    ensures Linked(i)
  {
    hide Linked;
    if i < 16 {
      Linked0(i);
    } else if i < 32 {
      Linked1(i);
    } else if i < 48 {
      Linked2(i);
    } else if i < 64 {
      Linked3(i);
    } else if i < 80 {
      Linked4(i);
    } else if i < 96 {
      Linked5(i);
    } else if i < 112 {
      Linked6(i);
    } else {
      Linked7(i);
    }
  }

  /** No keyword looks like a later one of its chain. */
  lemma KeywordsDiffer(i: nat)
    requires i < KEYWORDS
    ensures ApartFrom(i, ANext(i))
  {
    hide ApartFrom;
    if i < 25 {
      Apart0(i);
    } else if i < 50 {
      Apart1(i);
    } else if i < 75 {
      Apart2(i);
    } else if i < 100 {
      Apart3(i);
    } else {
      Apart4(i);
    }
  }
}
