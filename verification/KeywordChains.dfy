/** Each of the 124 keywords lies on the chain of its own bucket, behind keywords that are all different. */
module KeywordChains {
  import opened KeywordTables

  /** charMap: ASCII lower case. */
  function Lower(c: bv8): bv8 {
    if 65 <= c <= 90 then c | 32 else c
  }

  function Width(n: bv32): nat {
    n as int
  }

  function Mix(first: bv8, last: bv8, n: bv32): bv32 {
    ((first as bv32) * 4) ^ ((last as bv32) * 3) ^ n
  }

  /** The bucket of a string of length n with the given first and last bytes. */
  function Hash(first: bv8, last: bv8, n: bv32): (h: nat)
    ensures h < 127
  {
    Width(Mix(Lower(first), Lower(last), n)) % 127
  }

  predicate InText(i: nat)
    requires i < KEYWORDS
  {
    AOffset(i) + Width(ALen(i)) <= TEXT_LENGTH
  }

  predicate DifferAt(a: nat, b: nat, p: nat)
    requires a < KEYWORDS && b < KEYWORDS
  {
    && AOffset(a) + p < TEXT_LENGTH && AOffset(b) + p < TEXT_LENGTH
    && ZText(AOffset(a) + p) != ZText(AOffset(b) + p)
  }

  ghost predicate Differ(a: nat, b: nat)
    requires a < KEYWORDS && b < KEYWORDS
  {
    ALen(a) != ALen(b) || exists p: nat :: p < Width(ALen(b)) && DifferAt(a, b, p)
  }

  /** Following the chain from "link" one comes to keyword i, passing only keywords unlike it. */
  ghost predicate Leads(link: nat, i: nat)
    requires link <= KEYWORDS && i < KEYWORDS
    decreases link
  {
    link != 0 && (link == i + 1 || (Differ(link - 1, i) && Leads(ANext(link - 1), i)))
  }

  ghost predicate Found(i: nat)
    requires i < KEYWORDS
  {
    && InText(i)
    && var first, last := ZText(AOffset(i)), ZText(AOffset(i) + Width(ALen(i)) - 1);
    && first != 95 && last != 95
    && Leads(AHash(Hash(first, last, ALen(i))), i)
  }

  lemma Reindex()
    ensures Found(0)
  {
    assert AOffset(0) == 0 && ALen(0) == 7 && ZText(0) == 82 && ZText(6) == 88;
    assert Hash(82, 88, 7) == 40 && AHash(40) == 69;
    assert ANext(68) == 1 && ALen(68) == 4;
    hide ZText, AOffset, ALen, AHash, ANext, Hash;
  }

  lemma Indexed()
    ensures Found(1)
  {
    assert AOffset(1) == 2 && ALen(1) == 7 && ZText(2) == 73 && ZText(8) == 68;
    assert Hash(73, 68, 7) == 16 && AHash(16) == 15;
    assert ANext(14) == 2 && AOffset(14) == 41 && ZText(43) == 83 && ZText(4) == 68;
    hide ZText, AOffset, ALen, AHash, ANext, Hash;
    assert DifferAt(14, 1, 2) && Differ(14, 1);
  }

  lemma Index()
    ensures Found(2)
  {
    assert AOffset(2) == 2 && ALen(2) == 5 && ZText(2) == 73 && ZText(6) == 88;
    assert Hash(73, 88, 5) == 74 && AHash(74) == 55;
    assert ANext(54) == 3 && AOffset(54) == 209 && ZText(210) == 82 && ZText(3) == 78;
    hide ZText, AOffset, ALen, AHash, ANext, Hash;
    assert DifferAt(54, 2, 1) && Differ(54, 2);
  }

  lemma Desc()
    ensures Found(3)
  {
    assert AOffset(3) == 8 && ALen(3) == 4 && ZText(8) == 68 && ZText(11) == 67;
    assert Hash(68, 67, 4) == 62 && AHash(62) == 5;
    assert ANext(4) == 4 && ALen(4) == 6;
    hide ZText, AOffset, ALen, AHash, ANext, Hash;
  }

  lemma Escape()
    ensures Found(4)
  {
    assert AOffset(4) == 9 && ALen(4) == 6 && ZText(9) == 69 && ZText(14) == 69;
    assert Hash(69, 69, 6) == 62 && AHash(62) == 5;
    hide ZText, AOffset, ALen, AHash, ANext, Hash;
  }

  lemma Each()
    ensures Found(5)
  {
    assert AOffset(5) == 14 && ALen(5) == 4 && ZText(14) == 69 && ZText(17) == 72;
    assert Hash(69, 72, 4) == 41 && AHash(41) == 6;
    hide ZText, AOffset, ALen, AHash, ANext, Hash;
  }

  lemma Check()
    ensures Found(6)
  {
    assert AOffset(6) == 16 && ALen(6) == 5 && ZText(16) == 67 && ZText(20) == 75;
    assert Hash(67, 75, 5) == 73 && AHash(73) == 28;
    assert ANext(27) == 7 && ALen(27) == 6;
    hide ZText, AOffset, ALen, AHash, ANext, Hash;
  }

  lemma Key()
    ensures Found(7)
  {
    assert AOffset(7) == 20 && ALen(7) == 3 && ZText(20) == 75 && ZText(22) == 89;
    assert Hash(75, 89, 3) == 69 && AHash(69) == 106;
    assert ANext(105) == 104 && ALen(105) == 4;
    assert ANext(103) == 8 && ALen(103) == 8;
    hide ZText, AOffset, ALen, AHash, ANext, Hash;
    assert Leads(104, 7);
  }

  lemma Before()
    ensures Found(8)
  {
    assert AOffset(8) == 23 && ALen(8) == 6 && ZText(23) == 66 && ZText(28) == 69;
    assert Hash(66, 69, 6) == 34 && AHash(34) == 9;
    hide ZText, AOffset, ALen, AHash, ANext, Hash;
  }

  lemma Foreign()
    ensures Found(9)
  {
    assert AOffset(9) == 25 && ALen(9) == 7 && ZText(25) == 70 && ZText(31) == 78;
    assert Hash(70, 78, 7) == 86 && AHash(86) == 92;
    assert ANext(91) == 10 && ALen(91) == 13;
    hide ZText, AOffset, ALen, AHash, ANext, Hash;
  }

  lemma For()
    ensures Found(10)
  {
    assert AOffset(10) == 25 && ALen(10) == 3 && ZText(25) == 70 && ZText(27) == 82;
    assert Hash(70, 82, 3) == 78 && AHash(78) == 100;
    assert ANext(99) == 11 && ALen(99) == 17;
    hide ZText, AOffset, ALen, AHash, ANext, Hash;
  }

  lemma Ignore()
    ensures Found(11)
  {
    assert AOffset(11) == 29 && ALen(11) == 6 && ZText(29) == 73 && ZText(34) == 69;
    assert Hash(73, 69, 6) == 14 && AHash(14) == 12;
    hide ZText, AOffset, ALen, AHash, ANext, Hash;
  }

  lemma Regexp()
    ensures Found(12)
  {
    assert AOffset(12) == 33 && ALen(12) == 6 && ZText(33) == 82 && ZText(38) == 80;
    assert Hash(82, 80, 6) == 31 && AHash(31) == 22;
    assert ANext(21) == 13 && ALen(21) == 4;
    hide ZText, AOffset, ALen, AHash, ANext, Hash;
  }

  lemma Explain()
    ensures Found(13)
  {
    assert AOffset(13) == 36 && ALen(13) == 7 && ZText(36) == 69 && ZText(42) == 78;
    assert Hash(69, 78, 7) == 90 && AHash(90) == 14;
    hide ZText, AOffset, ALen, AHash, ANext, Hash;
  }

  lemma Instead()
    ensures Found(14)
  {
    assert AOffset(14) == 41 && ALen(14) == 7 && ZText(41) == 73 && ZText(47) == 68;
    assert Hash(73, 68, 7) == 16 && AHash(16) == 15;
    hide ZText, AOffset, ALen, AHash, ANext, Hash;
  }

  lemma Add()
    ensures Found(15)
  {
    assert AOffset(15) == 46 && ALen(15) == 3 && ZText(46) == 65 && ZText(48) == 68;
    assert Hash(65, 68, 3) == 44 && AHash(44) == 90;
    assert ANext(89) == 16 && AOffset(89) == 378 && ZText(379) == 78 && ZText(47) == 68;
    hide ZText, AOffset, ALen, AHash, ANext, Hash;
    assert DifferAt(89, 15, 1) && Differ(89, 15);
  }

  lemma Database()
    ensures Found(16)
  {
    assert AOffset(16) == 48 && ALen(16) == 8 && ZText(48) == 68 && ZText(55) == 69;
    assert Hash(68, 69, 8) == 56 && AHash(56) == 17;
    hide ZText, AOffset, ALen, AHash, ANext, Hash;
  }

  lemma As()
    ensures Found(17)
  {
    assert AOffset(17) == 53 && ALen(17) == 2 && ZText(53) == 65 && ZText(54) == 83;
    assert Hash(65, 83, 2) == 96 && AHash(96) == 18;
    hide ZText, AOffset, ALen, AHash, ANext, Hash;
  }

  lemma Select()
    ensures Found(18)
  {
    assert AOffset(18) == 54 && ALen(18) == 6 && ZText(54) == 83 && ZText(59) == 84;
    assert Hash(83, 84, 6) == 23 && AHash(23) == 19;
    hide ZText, AOffset, ALen, AHash, ANext, Hash;
  }

  lemma Table()
    ensures Found(19)
  {
    assert AOffset(19) == 59 && ALen(19) == 5 && ZText(59) == 84 && ZText(63) == 69;
    assert Hash(84, 69, 5) == 123 && AHash(123) == 20;
    hide ZText, AOffset, ALen, AHash, ANext, Hash;
  }

  lemma Left()
    ensures Found(20)
  {
    assert AOffset(20) == 62 && ALen(20) == 4 && ZText(62) == 76 && ZText(65) == 84;
    assert Hash(76, 84, 4) == 105 && AHash(105) == 46;
    assert ANext(45) == 21 && ALen(45) == 2;
    hide ZText, AOffset, ALen, AHash, ANext, Hash;
  }

  lemma Then()
    ensures Found(21)
  {
    assert AOffset(21) == 65 && ALen(21) == 4 && ZText(65) == 84 && ZText(68) == 78;
    assert Hash(84, 78, 4) == 31 && AHash(31) == 22;
    hide ZText, AOffset, ALen, AHash, ANext, Hash;
  }

  lemma End()
    ensures Found(22)
  {
    assert AOffset(22) == 67 && ALen(22) == 3 && ZText(67) == 69 && ZText(69) == 68;
    assert Hash(69, 68, 3) == 60 && AHash(60) == 23;
    hide ZText, AOffset, ALen, AHash, ANext, Hash;
  }

  lemma Deferrable()
    ensures Found(23)
  {
    assert AOffset(23) == 69 && ALen(23) == 10 && ZText(69) == 68 && ZText(78) == 69;
    assert Hash(68, 69, 10) == 54 && AHash(54) == 24;
    hide ZText, AOffset, ALen, AHash, ANext, Hash;
  }

  lemma Else()
    ensures Found(24)
  {
    assert AOffset(24) == 78 && ALen(24) == 4 && ZText(78) == 69 && ZText(81) == 69;
    assert Hash(69, 69, 4) == 64 && AHash(64) == 25;
    hide ZText, AOffset, ALen, AHash, ANext, Hash;
  }

  lemma Except()
    ensures Found(25)
  {
    assert AOffset(25) == 81 && ALen(25) == 6 && ZText(81) == 69 && ZText(86) == 84;
    assert Hash(69, 84, 6) == 79 && AHash(79) == 26;
    hide ZText, AOffset, ALen, AHash, ANext, Hash;
  }

  lemma Transaction()
    ensures Found(26)
  {
    assert AOffset(26) == 86 && ALen(26) == 11 && ZText(86) == 84 && ZText(96) == 78;
    assert Hash(84, 78, 11) == 18 && AHash(18) == 116;
    assert ANext(115) == 27 && ALen(115) == 5;
    hide ZText, AOffset, ALen, AHash, ANext, Hash;
  }

  lemma Action()
    ensures Found(27)
  {
    assert AOffset(27) == 91 && ALen(27) == 6 && ZText(91) == 65 && ZText(96) == 78;
    assert Hash(65, 78, 6) == 73 && AHash(73) == 28;
    hide ZText, AOffset, ALen, AHash, ANext, Hash;
  }

  lemma On()
    ensures Found(28)
  {
    assert AOffset(28) == 95 && ALen(28) == 2 && ZText(95) == 79 && ZText(96) == 78;
    assert Hash(79, 78, 2) == 117 && AHash(117) == 29;
    hide ZText, AOffset, ALen, AHash, ANext, Hash;
  }

  lemma Natural()
    ensures Found(29)
  {
    assert AOffset(29) == 96 && ALen(29) == 7 && ZText(96) == 78 && ZText(102) == 76;
    assert Hash(78, 76, 7) == 124 && AHash(124) == 61;
    assert ANext(60) == 30 && AOffset(60) == 240 && ZText(241) == 79 && ZText(97) == 65;
    hide ZText, AOffset, ALen, AHash, ANext, Hash;
    assert DifferAt(60, 29, 1) && Differ(60, 29);
  }

  lemma Alter()
    ensures Found(30)
  {
    assert AOffset(30) == 101 && ALen(30) == 5 && ZText(101) == 65 && ZText(105) == 82;
    assert Hash(65, 82, 5) == 88 && AHash(88) == 88;
    assert ANext(87) == 31 && AOffset(87) == 367 && ZText(368) == 70 && ZText(102) == 76;
    hide ZText, AOffset, ALen, AHash, ANext, Hash;
    assert DifferAt(87, 30, 1) && Differ(87, 30);
  }

  lemma Raise()
    ensures Found(31)
  {
    assert AOffset(31) == 105 && ALen(31) == 5 && ZText(105) == 82 && ZText(109) == 69;
    assert Hash(82, 69, 5) == 99 && AHash(99) == 32;
    hide ZText, AOffset, ALen, AHash, ANext, Hash;
  }

  lemma Exclusive()
    ensures Found(32)
  {
    assert AOffset(32) == 109 && ALen(32) == 9 && ZText(109) == 69 && ZText(117) == 69;
    assert Hash(69, 69, 9) == 51 && AHash(51) == 44;
    assert ANext(43) == 33 && AOffset(43) == 167 && ZText(168) == 69 && ZText(110) == 88;
    hide ZText, AOffset, ALen, AHash, ANext, Hash;
    assert DifferAt(43, 32, 1) && Differ(43, 32);
  }

  lemma Exists()
    ensures Found(33)
  {
    assert AOffset(33) == 117 && ALen(33) == 6 && ZText(117) == 69 && ZText(122) == 83;
    assert Hash(69, 83, 6) == 76 && AHash(76) == 91;
    assert ANext(90) == 34 && ALen(90) == 7;
    hide ZText, AOffset, ALen, AHash, ANext, Hash;
  }

  lemma Savepoint()
    ensures Found(34)
  {
    assert AOffset(34) == 122 && ALen(34) == 9 && ZText(122) == 83 && ZText(130) == 84;
    assert Hash(83, 84, 9) == 26 && AHash(26) == 121;
    assert ANext(120) == 35 && ALen(120) == 6;
    hide ZText, AOffset, ALen, AHash, ANext, Hash;
  }

  lemma Intersect()
    ensures Found(35)
  {
    assert AOffset(35) == 128 && ALen(35) == 9 && ZText(128) == 73 && ZText(136) == 84;
    assert Hash(73, 84, 9) == 114 && AHash(114) == 36;
    hide ZText, AOffset, ALen, AHash, ANext, Hash;
  }

  lemma Trigger()
    ensures Found(36)
  {
    assert AOffset(36) == 136 && ALen(36) == 7 && ZText(136) == 84 && ZText(142) == 82;
    assert Hash(84, 82, 7) == 2 && AHash(2) == 117;
    assert ANext(116) == 37 && ALen(116) == 8;
    hide ZText, AOffset, ALen, AHash, ANext, Hash;
  }

  lemma References()
    ensures Found(37)
  {
    assert AOffset(37) == 142 && ALen(37) == 10 && ZText(142) == 82 && ZText(151) == 83;
    assert Hash(82, 83, 10) == 28 && AHash(28) == 119;
    assert ANext(118) == 83 && ALen(118) == 5;
    assert ANext(82) == 65 && ALen(82) == 7;
    assert ANext(64) == 38 && ALen(64) == 4;
    hide ZText, AOffset, ALen, AHash, ANext, Hash;
    assert Leads(65, 37);
    assert Leads(83, 37);
  }

  lemma Constraint()
    ensures Found(38)
  {
    assert AOffset(38) == 152 && ALen(38) == 10 && ZText(152) == 67 && ZText(161) == 84;
    assert Hash(67, 84, 10) == 91 && AHash(91) == 39;
    hide ZText, AOffset, ALen, AHash, ANext, Hash;
  }

  lemma Into()
    ensures Found(39)
  {
    assert AOffset(39) == 159 && ALen(39) == 4 && ZText(159) == 73 && ZText(162) == 79;
    assert Hash(73, 79, 4) == 110 && AHash(110) == 40;
    hide ZText, AOffset, ALen, AHash, ANext, Hash;
  }

  lemma Offset()
    ensures Found(40)
  {
    assert AOffset(40) == 162 && ALen(40) == 6 && ZText(162) == 79 && ZText(167) == 84;
    assert Hash(79, 84, 6) == 103 && AHash(103) == 113;
    assert ANext(112) == 75 && AOffset(112) == 490 && ZText(491) == 83 && ZText(163) == 70;
    assert ANext(74) == 41 && ALen(74) == 4;
    hide ZText, AOffset, ALen, AHash, ANext, Hash;
    assert DifferAt(112, 40, 1) && Differ(112, 40);
    assert Leads(75, 40);
  }

  lemma Of()
    ensures Found(41)
  {
    assert AOffset(41) == 162 && ALen(41) == 2 && ZText(162) == 79 && ZText(163) == 70;
    assert Hash(79, 70, 2) == 13 && AHash(13) == 42;
    hide ZText, AOffset, ALen, AHash, ANext, Hash;
  }

  lemma Set()
    ensures Found(42)
  {
    assert AOffset(42) == 165 && ALen(42) == 3 && ZText(165) == 83 && ZText(167) == 84;
    assert Hash(83, 84, 3) == 20 && AHash(20) == 54;
    assert ANext(53) == 43 && ALen(53) == 6;
    hide ZText, AOffset, ALen, AHash, ANext, Hash;
  }

  lemma Temporary()
    ensures Found(43)
  {
    assert AOffset(43) == 167 && ALen(43) == 9 && ZText(167) == 84 && ZText(175) == 89;
    assert Hash(84, 89, 9) == 51 && AHash(51) == 44;
    hide ZText, AOffset, ALen, AHash, ANext, Hash;
  }

  lemma Temp()
    ensures Found(44)
  {
    assert AOffset(44) == 167 && ALen(44) == 4 && ZText(167) == 84 && ZText(170) == 80;
    assert Hash(84, 80, 4) == 5 && AHash(5) == 45;
    hide ZText, AOffset, ALen, AHash, ANext, Hash;
  }

  lemma Or()
    ensures Found(45)
  {
    assert AOffset(45) == 171 && ALen(45) == 2 && ZText(171) == 79 && ZText(172) == 82;
    assert Hash(79, 82, 2) == 105 && AHash(105) == 46;
    hide ZText, AOffset, ALen, AHash, ANext, Hash;
  }

  lemma Unique()
    ensures Found(46)
  {
    assert AOffset(46) == 176 && ALen(46) == 6 && ZText(176) == 85 && ZText(181) == 69;
    assert Hash(85, 69, 6) == 126 && AHash(126) == 56;
    assert ANext(55) == 47 && AOffset(55) == 212 && ZText(213) == 80 && ZText(177) == 78;
    hide ZText, AOffset, ALen, AHash, ANext, Hash;
    assert DifferAt(55, 46, 1) && Differ(55, 46);
  }

  lemma Query()
    ensures Found(47)
  {
    assert AOffset(47) == 179 && ALen(47) == 5 && ZText(179) == 81 && ZText(183) == 89;
    assert Hash(81, 89, 5) == 43 && AHash(43) == 48;
    hide ZText, AOffset, ALen, AHash, ANext, Hash;
  }

  lemma Without()
    ensures Found(48)
  {
    assert AOffset(48) == 184 && ALen(48) == 7 && ZText(184) == 87 && ZText(190) == 84;
    assert Hash(87, 84, 7) == 8 && AHash(8) == 82;
    assert ANext(81) == 49 && ALen(81) == 6;
    hide ZText, AOffset, ALen, AHash, ANext, Hash;
  }

  lemma With()
    ensures Found(49)
  {
    assert AOffset(49) == 184 && ALen(49) == 4 && ZText(184) == 87 && ZText(187) == 72;
    assert Hash(87, 72, 4) == 97 && AHash(97) == 89;
    assert ANext(88) == 52 && ALen(88) == 7;
    assert ANext(51) == 50 && ALen(51) == 7;
    hide ZText, AOffset, ALen, AHash, ANext, Hash;
    assert Leads(52, 49);
  }

  lemma Outer()
    ensures Found(50)
  {
    assert AOffset(50) == 188 && ALen(50) == 5 && ZText(188) == 79 && ZText(192) == 82;
    assert Hash(79, 82, 5) == 112 && AHash(112) == 114;
    assert ANext(113) == 51 && AOffset(113) == 496 && ZText(497) == 82 && ZText(189) == 85;
    hide ZText, AOffset, ALen, AHash, ANext, Hash;
    assert DifferAt(113, 50, 1) && Differ(113, 50);
  }

  lemma Release()
    ensures Found(51)
  {
    assert AOffset(51) == 192 && ALen(51) == 7 && ZText(192) == 82 && ZText(198) == 69;
    assert Hash(82, 69, 7) == 97 && AHash(97) == 89;
    assert ANext(88) == 52 && AOffset(88) == 371 && ZText(373) == 80 && ZText(194) == 76;
    hide ZText, AOffset, ALen, AHash, ANext, Hash;
    assert DifferAt(88, 51, 2) && Differ(88, 51);
  }

  lemma Attach()
    ensures Found(52)
  {
    assert AOffset(52) == 199 && ALen(52) == 6 && ZText(199) == 65 && ZText(204) == 72;
    assert Hash(65, 72, 6) == 59 && AHash(59) == 53;
    hide ZText, AOffset, ALen, AHash, ANext, Hash;
  }

  lemma Having()
    ensures Found(53)
  {
    assert AOffset(53) == 204 && ALen(53) == 6 && ZText(204) == 72 && ZText(209) == 71;
    assert Hash(72, 71, 6) == 20 && AHash(20) == 54;
    hide ZText, AOffset, ALen, AHash, ANext, Hash;
  }

  lemma Group()
    ensures Found(54)
  {
    assert AOffset(54) == 209 && ALen(54) == 5 && ZText(209) == 71 && ZText(213) == 80;
    assert Hash(71, 80, 5) == 74 && AHash(74) == 55;
    hide ZText, AOffset, ALen, AHash, ANext, Hash;
  }

  lemma Update()
    ensures Found(55)
  {
    assert AOffset(55) == 212 && ALen(55) == 6 && ZText(212) == 85 && ZText(217) == 69;
    assert Hash(85, 69, 6) == 126 && AHash(126) == 56;
    hide ZText, AOffset, ALen, AHash, ANext, Hash;
  }

  lemma Begin()
    ensures Found(56)
  {
    assert AOffset(56) == 218 && ALen(56) == 5 && ZText(218) == 66 && ZText(222) == 78;
    assert Hash(66, 78, 5) == 72 && AHash(72) == 57;
    hide ZText, AOffset, ALen, AHash, ANext, Hash;
  }

  lemma Inner()
    ensures Found(57)
  {
    assert AOffset(57) == 221 && ALen(57) == 5 && ZText(221) == 73 && ZText(225) == 82;
    assert Hash(73, 82, 5) == 120 && AHash(120) == 63;
    assert ANext(62) == 58 && ALen(62) == 2;
    hide ZText, AOffset, ALen, AHash, ANext, Hash;
  }

  lemma Recursive()
    ensures Found(58)
  {
    assert AOffset(58) == 225 && ALen(58) == 9 && ZText(225) == 82 && ZText(233) == 69;
    assert Hash(82, 69, 9) == 111 && AHash(111) == 59;
    hide ZText, AOffset, ALen, AHash, ANext, Hash;
  }

  lemma Between()
    ensures Found(59)
  {
    assert AOffset(59) == 234 && ALen(59) == 7 && ZText(234) == 66 && ZText(240) == 78;
    assert Hash(66, 78, 7) == 70 && AHash(70) == 60;
    hide ZText, AOffset, ALen, AHash, ANext, Hash;
  }

  lemma Notnull()
    ensures Found(60)
  {
    assert AOffset(60) == 240 && ALen(60) == 7 && ZText(240) == 78 && ZText(246) == 76;
    assert Hash(78, 76, 7) == 124 && AHash(124) == 61;
    hide ZText, AOffset, ALen, AHash, ANext, Hash;
  }

  lemma Not()
    ensures Found(61)
  {
    assert AOffset(61) == 240 && ALen(61) == 3 && ZText(240) == 78 && ZText(242) == 84;
    assert Hash(78, 84, 3) == 104 && AHash(104) == 62;
    hide ZText, AOffset, ALen, AHash, ANext, Hash;
  }

  lemma No()
    ensures Found(62)
  {
    assert AOffset(62) == 240 && ALen(62) == 2 && ZText(240) == 78 && ZText(241) == 79;
    assert Hash(78, 79, 2) == 120 && AHash(120) == 63;
    hide ZText, AOffset, ALen, AHash, ANext, Hash;
  }

  lemma Null()
    ensures Found(63)
  {
    assert AOffset(63) == 243 && ALen(63) == 4 && ZText(243) == 78 && ZText(246) == 76;
    assert Hash(78, 76, 4) == 121 && AHash(121) == 64;
    hide ZText, AOffset, ALen, AHash, ANext, Hash;
  }

  lemma Like()
    ensures Found(64)
  {
    assert AOffset(64) == 246 && ALen(64) == 4 && ZText(246) == 76 && ZText(249) == 69;
    assert Hash(76, 69, 4) == 28 && AHash(28) == 119;
    assert ANext(118) == 83 && ALen(118) == 5;
    assert ANext(82) == 65 && ALen(82) == 7;
    hide ZText, AOffset, ALen, AHash, ANext, Hash;
    assert Leads(83, 64);
  }

  lemma Cascade()
    ensures Found(65)
  {
    assert AOffset(65) == 250 && ALen(65) == 7 && ZText(250) == 67 && ZText(256) == 69;
    assert Hash(67, 69, 7) == 37 && AHash(37) == 70;
    assert ANext(69) == 66 && AOffset(69) == 265 && ZText(266) == 79 && ZText(251) == 65;
    hide ZText, AOffset, ALen, AHash, ANext, Hash;
    assert DifferAt(69, 65, 1) && Differ(69, 65);
  }

  lemma Asc()
    ensures Found(66)
  {
    assert AOffset(66) == 251 && ALen(66) == 3 && ZText(251) == 65 && ZText(253) == 67;
    assert Hash(65, 67, 3) == 47 && AHash(47) == 118;
    assert ANext(117) == 73 && AOffset(117) == 521 && ZText(522) == 79 && ZText(252) == 83;
    assert ANext(72) == 67 && ALen(72) == 6;
    hide ZText, AOffset, ALen, AHash, ANext, Hash;
    assert DifferAt(117, 66, 1) && Differ(117, 66);
    assert Leads(73, 66);
  }

  lemma Delete()
    ensures Found(67)
  {
    assert AOffset(67) == 255 && ALen(67) == 6 && ZText(255) == 68 && ZText(260) == 69;
    assert Hash(68, 69, 6) == 58 && AHash(58) == 122;
    assert ANext(121) == 68 && ALen(121) == 4;
    hide ZText, AOffset, ALen, AHash, ANext, Hash;
  }

  lemma Case()
    ensures Found(68)
  {
    assert AOffset(68) == 261 && ALen(68) == 4 && ZText(261) == 67 && ZText(264) == 69;
    assert Hash(67, 69, 4) == 40 && AHash(40) == 69;
    hide ZText, AOffset, ALen, AHash, ANext, Hash;
  }

  lemma Collate()
    ensures Found(69)
  {
    assert AOffset(69) == 265 && ALen(69) == 7 && ZText(265) == 67 && ZText(271) == 69;
    assert Hash(67, 69, 7) == 37 && AHash(37) == 70;
    hide ZText, AOffset, ALen, AHash, ANext, Hash;
  }

  lemma Create()
    ensures Found(70)
  {
    assert AOffset(70) == 272 && ALen(70) == 6 && ZText(272) == 67 && ZText(277) == 69;
    assert Hash(67, 69, 6) == 38 && AHash(38) == 71;
    hide ZText, AOffset, ALen, AHash, ANext, Hash;
  }

  lemma CurrentDate()
    ensures Found(71)
  {
    assert AOffset(71) == 278 && ALen(71) == 12 && ZText(278) == 67 && ZText(289) == 69;
    assert Hash(67, 69, 12) == 48 && AHash(48) == 101;
    assert ANext(100) == 72 && AOffset(100) == 429 && ZText(437) == 84 && ZText(286) == 68;
    hide ZText, AOffset, ALen, AHash, ANext, Hash;
    assert DifferAt(100, 71, 8) && Differ(100, 71);
  }

  lemma Detach()
    ensures Found(72)
  {
    assert AOffset(72) == 290 && ALen(72) == 6 && ZText(290) == 68 && ZText(295) == 72;
    assert Hash(68, 72, 6) == 47 && AHash(47) == 118;
    assert ANext(117) == 73 && ALen(117) == 3;
    hide ZText, AOffset, ALen, AHash, ANext, Hash;
  }

  lemma Immediate()
    ensures Found(73)
  {
    assert AOffset(73) == 296 && ALen(73) == 9 && ZText(296) == 73 && ZText(304) == 69;
    assert Hash(73, 69, 9) == 3 && AHash(3) == 74;
    hide ZText, AOffset, ALen, AHash, ANext, Hash;
  }

  lemma Join()
    ensures Found(74)
  {
    assert AOffset(74) == 305 && ALen(74) == 4 && ZText(305) == 74 && ZText(308) == 78;
    assert Hash(74, 78, 4) == 103 && AHash(103) == 113;
    assert ANext(112) == 75 && ALen(112) == 6;
    hide ZText, AOffset, ALen, AHash, ANext, Hash;
  }

  lemma Insert()
    ensures Found(75)
  {
    assert AOffset(75) == 307 && ALen(75) == 6 && ZText(307) == 73 && ZText(312) == 84;
    assert Hash(73, 84, 6) == 0 && AHash(0) == 76;
    hide ZText, AOffset, ALen, AHash, ANext, Hash;
  }

  lemma Match()
    ensures Found(76)
  {
    assert AOffset(76) == 313 && ALen(76) == 5 && ZText(313) == 77 && ZText(317) == 72;
    assert Hash(77, 72, 5) == 10 && AHash(10) == 77;
    hide ZText, AOffset, ALen, AHash, ANext, Hash;
  }

  lemma Plan()
    ensures Found(77)
  {
    assert AOffset(77) == 318 && ALen(77) == 4 && ZText(318) == 80 && ZText(321) == 78;
    assert Hash(80, 78, 4) == 15 && AHash(15) == 78;
    hide ZText, AOffset, ALen, AHash, ANext, Hash;
  }

  lemma Analyze()
    ensures Found(78)
  {
    assert AOffset(78) == 320 && ALen(78) == 7 && ZText(320) == 65 && ZText(326) == 69;
    assert Hash(65, 69, 7) == 45 && AHash(45) == 102;
    assert ANext(101) == 79 && AOffset(101) == 445 && ZText(446) == 82 && ZText(321) == 78;
    hide ZText, AOffset, ALen, AHash, ANext, Hash;
    assert DifferAt(101, 78, 1) && Differ(101, 78);
  }

  lemma Pragma()
    ensures Found(79)
  {
    assert AOffset(79) == 327 && ALen(79) == 6 && ZText(327) == 80 && ZText(332) == 65;
    assert Hash(80, 65, 6) == 102 && AHash(102) == 80;
    hide ZText, AOffset, ALen, AHash, ANext, Hash;
  }

  lemma Abort()
    ensures Found(80)
  {
    assert AOffset(80) == 332 && ALen(80) == 5 && ZText(332) == 65 && ZText(336) == 84;
    assert Hash(65, 84, 5) == 94 && AHash(94) == 81;
    hide ZText, AOffset, ALen, AHash, ANext, Hash;
  }

  lemma Values()
    ensures Found(81)
  {
    assert AOffset(81) == 337 && ALen(81) == 6 && ZText(337) == 86 && ZText(342) == 83;
    assert Hash(86, 83, 6) == 8 && AHash(8) == 82;
    hide ZText, AOffset, ALen, AHash, ANext, Hash;
  }

  lemma Virtual()
    ensures Found(82)
  {
    assert AOffset(82) == 343 && ALen(82) == 7 && ZText(343) == 86 && ZText(349) == 76;
    assert Hash(86, 76, 7) == 28 && AHash(28) == 119;
    assert ANext(118) == 83 && ALen(118) == 5;
    hide ZText, AOffset, ALen, AHash, ANext, Hash;
  }

  lemma Limit()
    ensures Found(83)
  {
    assert AOffset(83) == 349 && ALen(83) == 5 && ZText(349) == 76 && ZText(353) == 84;
    assert Hash(76, 84, 5) == 106 && AHash(106) == 84;
    hide ZText, AOffset, ALen, AHash, ANext, Hash;
  }

  lemma When()
    ensures Found(84)
  {
    assert AOffset(84) == 354 && ALen(84) == 4 && ZText(354) == 87 && ZText(357) == 78;
    assert Hash(87, 78, 4) == 19 && AHash(19) == 85;
    hide ZText, AOffset, ALen, AHash, ANext, Hash;
  }

  lemma Where()
    ensures Found(85)
  {
    assert AOffset(85) == 358 && ALen(85) == 5 && ZText(358) == 87 && ZText(362) == 69;
    assert Hash(87, 69, 5) == 119 && AHash(119) == 86;
    hide ZText, AOffset, ALen, AHash, ANext, Hash;
  }

  lemma Rename()
    ensures Found(86)
  {
    assert AOffset(86) == 361 && ALen(86) == 6 && ZText(361) == 82 && ZText(366) == 69;
    assert Hash(82, 69, 6) == 98 && AHash(98) == 111;
    assert ANext(110) == 87 && ALen(110) == 2;
    hide ZText, AOffset, ALen, AHash, ANext, Hash;
  }

  lemma After()
    ensures Found(87)
  {
    assert AOffset(87) == 367 && ALen(87) == 5 && ZText(367) == 65 && ZText(371) == 82;
    assert Hash(65, 82, 5) == 88 && AHash(88) == 88;
    hide ZText, AOffset, ALen, AHash, ANext, Hash;
  }

  lemma Replace()
    ensures Found(88)
  {
    assert AOffset(88) == 371 && ALen(88) == 7 && ZText(371) == 82 && ZText(377) == 69;
    assert Hash(82, 69, 7) == 97 && AHash(97) == 89;
    hide ZText, AOffset, ALen, AHash, ANext, Hash;
  }

  lemma And()
    ensures Found(89)
  {
    assert AOffset(89) == 378 && ALen(89) == 3 && ZText(378) == 65 && ZText(380) == 68;
    assert Hash(65, 68, 3) == 44 && AHash(44) == 90;
    hide ZText, AOffset, ALen, AHash, ANext, Hash;
  }

  lemma Default()
    ensures Found(90)
  {
    assert AOffset(90) == 380 && ALen(90) == 7 && ZText(380) == 68 && ZText(386) == 84;
    assert Hash(68, 84, 7) == 76 && AHash(76) == 91;
    hide ZText, AOffset, ALen, AHash, ANext, Hash;
  }

  lemma Autoincrement()
    ensures Found(91)
  {
    assert AOffset(91) == 387 && ALen(91) == 13 && ZText(387) == 65 && ZText(399) == 84;
    assert Hash(65, 84, 13) == 86 && AHash(86) == 92;
    hide ZText, AOffset, ALen, AHash, ANext, Hash;
  }

  lemma To()
    ensures Found(92)
  {
    assert AOffset(92) == 389 && ALen(92) == 2 && ZText(389) == 84 && ZText(390) == 79;
    assert Hash(84, 79, 2) == 32 && AHash(32) == 93;
    hide ZText, AOffset, ALen, AHash, ANext, Hash;
  }

  lemma In()
    ensures Found(93)
  {
    assert AOffset(93) == 391 && ALen(93) == 2 && ZText(391) == 73 && ZText(392) == 78;
    assert Hash(73, 78, 2) == 109 && AHash(109) == 94;
    hide ZText, AOffset, ALen, AHash, ANext, Hash;
  }

  lemma Cast()
    ensures Found(94)
  {
    assert AOffset(94) == 400 && ALen(94) == 4 && ZText(400) == 67 && ZText(403) == 84;
    assert Hash(67, 84, 4) == 85 && AHash(85) == 95;
    hide ZText, AOffset, ALen, AHash, ANext, Hash;
  }

  lemma Column()
    ensures Found(95)
  {
    assert AOffset(95) == 404 && ALen(95) == 6 && ZText(404) == 67 && ZText(409) == 78;
    assert Hash(67, 78, 6) == 65 && AHash(65) == 96;
    hide ZText, AOffset, ALen, AHash, ANext, Hash;
  }

  lemma Commit()
    ensures Found(96)
  {
    assert AOffset(96) == 410 && ALen(96) == 6 && ZText(410) == 67 && ZText(415) == 84;
    assert Hash(67, 84, 6) == 87 && AHash(87) == 97;
    hide ZText, AOffset, ALen, AHash, ANext, Hash;
  }

  lemma Conflict()
    ensures Found(97)
  {
    assert AOffset(97) == 416 && ALen(97) == 8 && ZText(416) == 67 && ZText(423) == 84;
    assert Hash(67, 84, 8) == 89 && AHash(89) == 109;
    assert ANext(108) == 107 && ALen(108) == 4;
    assert ANext(106) == 98 && ALen(106) == 4;
    hide ZText, AOffset, ALen, AHash, ANext, Hash;
    assert Leads(107, 97);
  }

  lemma Cross()
    ensures Found(98)
  {
    assert AOffset(98) == 424 && ALen(98) == 5 && ZText(424) == 67 && ZText(428) == 83;
    assert Hash(67, 83, 5) == 81 && AHash(81) == 99;
    hide ZText, AOffset, ALen, AHash, ANext, Hash;
  }

  lemma CurrentTimestamp()
    ensures Found(99)
  {
    assert AOffset(99) == 429 && ALen(99) == 17 && ZText(429) == 67 && ZText(445) == 80;
    assert Hash(67, 80, 17) == 78 && AHash(78) == 100;
    hide ZText, AOffset, ALen, AHash, ANext, Hash;
  }

  lemma CurrentTime()
    ensures Found(100)
  {
    assert AOffset(100) == 429 && ALen(100) == 12 && ZText(429) == 67 && ZText(440) == 69;
    assert Hash(67, 69, 12) == 48 && AHash(48) == 101;
    hide ZText, AOffset, ALen, AHash, ANext, Hash;
  }

  lemma Primary()
    ensures Found(101)
  {
    assert AOffset(101) == 445 && ALen(101) == 7 && ZText(445) == 80 && ZText(451) == 89;
    assert Hash(80, 89, 7) == 45 && AHash(45) == 102;
    hide ZText, AOffset, ALen, AHash, ANext, Hash;
  }

  lemma Deferred()
    ensures Found(102)
  {
    assert AOffset(102) == 452 && ALen(102) == 8 && ZText(452) == 68 && ZText(459) == 68;
    assert Hash(68, 68, 8) == 53 && AHash(53) == 103;
    hide ZText, AOffset, ALen, AHash, ANext, Hash;
  }

  lemma Distinct()
    ensures Found(103)
  {
    assert AOffset(103) == 459 && ALen(103) == 8 && ZText(459) == 68 && ZText(466) == 84;
    assert Hash(68, 84, 8) == 69 && AHash(69) == 106;
    assert ANext(105) == 104 && ALen(105) == 4;
    hide ZText, AOffset, ALen, AHash, ANext, Hash;
  }

  lemma Is()
    ensures Found(104)
  {
    assert AOffset(104) == 460 && ALen(104) == 2 && ZText(460) == 73 && ZText(461) == 83;
    assert Hash(73, 83, 2) == 1 && AHash(1) == 105;
    hide ZText, AOffset, ALen, AHash, ANext, Hash;
  }

  lemma Drop()
    ensures Found(105)
  {
    assert AOffset(105) == 467 && ALen(105) == 4 && ZText(467) == 68 && ZText(470) == 80;
    assert Hash(68, 80, 4) == 69 && AHash(69) == 106;
    hide ZText, AOffset, ALen, AHash, ANext, Hash;
  }

  lemma Fail()
    ensures Found(106)
  {
    assert AOffset(106) == 471 && ALen(106) == 4 && ZText(471) == 70 && ZText(474) == 76;
    assert Hash(70, 76, 4) == 89 && AHash(89) == 109;
    assert ANext(108) == 107 && AOffset(108) == 479 && ZText(480) == 85 && ZText(472) == 65;
    hide ZText, AOffset, ALen, AHash, ANext, Hash;
    assert DifferAt(108, 106, 1) && Differ(108, 106);
  }

  lemma From()
    ensures Found(107)
  {
    assert AOffset(107) == 475 && ALen(107) == 4 && ZText(475) == 70 && ZText(478) == 77;
    assert Hash(70, 77, 4) == 92 && AHash(92) == 108;
    hide ZText, AOffset, ALen, AHash, ANext, Hash;
  }

  lemma Full()
    ensures Found(108)
  {
    assert AOffset(108) == 479 && ALen(108) == 4 && ZText(479) == 70 && ZText(482) == 76;
    assert Hash(70, 76, 4) == 89 && AHash(89) == 109;
    hide ZText, AOffset, ALen, AHash, ANext, Hash;
  }

  lemma Glob()
    ensures Found(109)
  {
    assert AOffset(109) == 483 && ALen(109) == 4 && ZText(483) == 71 && ZText(486) == 66;
    assert Hash(71, 66, 4) == 63 && AHash(63) == 110;
    hide ZText, AOffset, ALen, AHash, ANext, Hash;
  }

  lemma By()
    ensures Found(110)
  {
    assert AOffset(110) == 486 && ALen(110) == 2 && ZText(486) == 66 && ZText(487) == 89;
    assert Hash(66, 89, 2) == 98 && AHash(98) == 111;
    hide ZText, AOffset, ALen, AHash, ANext, Hash;
  }

  lemma If()
    ensures Found(111)
  {
    assert AOffset(111) == 488 && ALen(111) == 2 && ZText(488) == 73 && ZText(489) == 70;
    assert Hash(73, 70, 2) == 21 && AHash(21) == 112;
    hide ZText, AOffset, ALen, AHash, ANext, Hash;
  }

  lemma Isnull()
    ensures Found(112)
  {
    assert AOffset(112) == 490 && ALen(112) == 6 && ZText(490) == 73 && ZText(495) == 76;
    assert Hash(73, 76, 6) == 103 && AHash(103) == 113;
    hide ZText, AOffset, ALen, AHash, ANext, Hash;
  }

  lemma Order()
    ensures Found(113)
  {
    assert AOffset(113) == 496 && ALen(113) == 5 && ZText(496) == 79 && ZText(500) == 82;
    assert Hash(79, 82, 5) == 112 && AHash(112) == 114;
    hide ZText, AOffset, ALen, AHash, ANext, Hash;
  }

  lemma Restrict()
    ensures Found(114)
  {
    assert AOffset(114) == 500 && ALen(114) == 8 && ZText(500) == 82 && ZText(507) == 84;
    assert Hash(82, 84, 8) == 29 && AHash(29) == 115;
    hide ZText, AOffset, ALen, AHash, ANext, Hash;
  }

  lemma Right()
    ensures Found(115)
  {
    assert AOffset(115) == 508 && ALen(115) == 5 && ZText(508) == 82 && ZText(512) == 84;
    assert Hash(82, 84, 5) == 18 && AHash(18) == 116;
    hide ZText, AOffset, ALen, AHash, ANext, Hash;
  }

  lemma Rollback()
    ensures Found(116)
  {
    assert AOffset(116) == 513 && ALen(116) == 8 && ZText(513) == 82 && ZText(520) == 75;
    assert Hash(82, 75, 8) == 2 && AHash(2) == 117;
    hide ZText, AOffset, ALen, AHash, ANext, Hash;
  }

  lemma Row()
    ensures Found(117)
  {
    assert AOffset(117) == 521 && ALen(117) == 3 && ZText(521) == 82 && ZText(523) == 87;
    assert Hash(82, 87, 3) == 47 && AHash(47) == 118;
    hide ZText, AOffset, ALen, AHash, ANext, Hash;
  }

  lemma Union()
    ensures Found(118)
  {
    assert AOffset(118) == 524 && ALen(118) == 5 && ZText(524) == 85 && ZText(528) == 78;
    assert Hash(85, 78, 5) == 28 && AHash(28) == 119;
    hide ZText, AOffset, ALen, AHash, ANext, Hash;
  }

  lemma Using()
    ensures Found(119)
  {
    assert AOffset(119) == 529 && ALen(119) == 5 && ZText(529) == 85 && ZText(533) == 71;
    assert Hash(85, 71, 5) == 101 && AHash(101) == 120;
    hide ZText, AOffset, ALen, AHash, ANext, Hash;
  }

  lemma Vacuum()
    ensures Found(120)
  {
    assert AOffset(120) == 534 && ALen(120) == 6 && ZText(534) == 86 && ZText(539) == 77;
    assert Hash(86, 77, 6) == 26 && AHash(26) == 121;
    hide ZText, AOffset, ALen, AHash, ANext, Hash;
  }

  lemma View()
    ensures Found(121)
  {
    assert AOffset(121) == 540 && ALen(121) == 4 && ZText(540) == 86 && ZText(543) == 87;
    assert Hash(86, 87, 4) == 58 && AHash(58) == 122;
    hide ZText, AOffset, ALen, AHash, ANext, Hash;
  }

  lemma Initially()
    ensures Found(122)
  {
    assert AOffset(122) == 544 && ALen(122) == 9 && ZText(544) == 73 && ZText(552) == 89;
    assert Hash(73, 89, 9) == 71 && AHash(71) == 123;
    hide ZText, AOffset, ALen, AHash, ANext, Hash;
  }

  lemma All()
    ensures Found(123)
  {
    assert AOffset(123) == 549 && ALen(123) == 3 && ZText(549) == 65 && ZText(551) == 76;
    assert Hash(65, 76, 3) == 68 && AHash(68) == 124;
    hide ZText, AOffset, ALen, AHash, ANext, Hash;
  }

  lemma FoundFrom0(i: nat)
    requires 0 <= i < 31
    ensures Found(i)
  {
    hide Found;
    match i
    case 0 => Reindex();
    case 1 => Indexed();
    case 2 => Index();
    case 3 => Desc();
    case 4 => Escape();
    case 5 => Each();
    case 6 => Check();
    case 7 => Key();
    case 8 => Before();
    case 9 => Foreign();
    case 10 => For();
    case 11 => Ignore();
    case 12 => Regexp();
    case 13 => Explain();
    case 14 => Instead();
    case 15 => Add();
    case 16 => Database();
    case 17 => As();
    case 18 => Select();
    case 19 => Table();
    case 20 => Left();
    case 21 => Then();
    case 22 => End();
    case 23 => Deferrable();
    case 24 => Else();
    case 25 => Except();
    case 26 => Transaction();
    case 27 => Action();
    case 28 => On();
    case 29 => Natural();
    case _ => Alter();
  }

  lemma FoundFrom31(i: nat)
    requires 31 <= i < 62
    ensures Found(i)
  {
    hide Found;
    match i
    case 31 => Raise();
    case 32 => Exclusive();
    case 33 => Exists();
    case 34 => Savepoint();
    case 35 => Intersect();
    case 36 => Trigger();
    case 37 => References();
    case 38 => Constraint();
    case 39 => Into();
    case 40 => Offset();
    case 41 => Of();
    case 42 => Set();
    case 43 => Temporary();
    case 44 => Temp();
    case 45 => Or();
    case 46 => Unique();
    case 47 => Query();
    case 48 => Without();
    case 49 => With();
    case 50 => Outer();
    case 51 => Release();
    case 52 => Attach();
    case 53 => Having();
    case 54 => Group();
    case 55 => Update();
    case 56 => Begin();
    case 57 => Inner();
    case 58 => Recursive();
    case 59 => Between();
    case 60 => Notnull();
    case _ => Not();
  }

  lemma FoundFrom62(i: nat)
    requires 62 <= i < 93
    ensures Found(i)
  {
    hide Found;
    match i
    case 62 => No();
    case 63 => Null();
    case 64 => Like();
    case 65 => Cascade();
    case 66 => Asc();
    case 67 => Delete();
    case 68 => Case();
    case 69 => Collate();
    case 70 => Create();
    case 71 => CurrentDate();
    case 72 => Detach();
    case 73 => Immediate();
    case 74 => Join();
    case 75 => Insert();
    case 76 => Match();
    case 77 => Plan();
    case 78 => Analyze();
    case 79 => Pragma();
    case 80 => Abort();
    case 81 => Values();
    case 82 => Virtual();
    case 83 => Limit();
    case 84 => When();
    case 85 => Where();
    case 86 => Rename();
    case 87 => After();
    case 88 => Replace();
    case 89 => And();
    case 90 => Default();
    case 91 => Autoincrement();
    case _ => To();
  }

  lemma FoundFrom93(i: nat)
    requires 93 <= i < 124
    ensures Found(i)
  {
    hide Found;
    match i
    case 93 => In();
    case 94 => Cast();
    case 95 => Column();
    case 96 => Commit();
    case 97 => Conflict();
    case 98 => Cross();
    case 99 => CurrentTimestamp();
    case 100 => CurrentTime();
    case 101 => Primary();
    case 102 => Deferred();
    case 103 => Distinct();
    case 104 => Is();
    case 105 => Drop();
    case 106 => Fail();
    case 107 => From();
    case 108 => Full();
    case 109 => Glob();
    case 110 => By();
    case 111 => If();
    case 112 => Isnull();
    case 113 => Order();
    case 114 => Restrict();
    case 115 => Right();
    case 116 => Rollback();
    case 117 => Row();
    case 118 => Union();
    case 119 => Using();
    case 120 => Vacuum();
    case 121 => View();
    case 122 => Initially();
    case _ => All();
  }

  lemma EveryKeywordFound(i: nat)
    requires i < KEYWORDS
    ensures Found(i)
  {
    hide Found;
    if i < 31 {
      FoundFrom0(i);
    } else if i < 62 {
      FoundFrom31(i);
    } else if i < 93 {
      FoundFrom62(i);
    } else {
      FoundFrom93(i);
    }
  }
}
