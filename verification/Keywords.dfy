/** keywordCode: the chained lookup finds a keyword exactly when the linear search of the list would. */
module Keywords {
  import opened KeywordTables
  import opened KeywordChains
  import opened KeywordList
  import opened KeywordTokens

  /** The byte with bit 0x20 cleared, as the comparison loop sees it. */
  function Mask(c: bv8): bv8 {
    c & 0xDF
  }

  /** The loop's test succeeds for every byte of keyword i. */
  ghost predicate Matches(z: seq<bv8>, i: nat)
    requires i < KEYWORDS && InText(i)
  {
    |z| == Width(ALen(i)) && forall j | 0 <= j < |z| :: Mask(z[j]) == ZText(AOffset(i) + j)
  }

  /** ASCII upper case. */
  function Upper(c: bv8): bv8 {
    if 97 <= c <= 122 then c & 0xDF else c
  }

  /** z is the word that keyword i spells, ignoring the case of letters. */
  ghost predicate IsKeyword(z: seq<bv8>, i: nat)
    requires i < KEYWORDS
  {
    |z| == |Spelling(i)| && forall j | 0 <= j < |z| :: Upper(z[j]) as int == Spelling(i)[j] as int
  }

  /** z would be keyword i, but for DEL bytes in place of underscores. */
  ghost predicate Mistaken(z: seq<bv8>, i: nat)
    requires i < KEYWORDS
  {
    && |z| == |Spelling(i)| && !IsKeyword(z, i)
    && forall j | 0 <= j < |z| ::
         Upper(z[j]) as int == Spelling(i)[j] as int || (z[j] == 0x7F && Spelling(i)[j] == '_')
  }

  /** The plain search of the list, from keyword "from" on. */
  ghost function Linear(z: seq<bv8>, from: nat): nat
    requires from <= KEYWORDS
    decreases KEYWORDS - from
  {
    if from == KEYWORDS then TK_ID
    else if IsKeyword(z, from) then TokenOf(Spelling(from))
    else Linear(z, from + 1)
  }

  lemma Bounds(i: nat)
    requires i < KEYWORDS
    ensures InText(i)
  {
    EveryKeywordFound(i);
  }

  /** Follow the chain to the first keyword that the loop accepts; 0 if there is none. */
  ghost function Walk(z: seq<bv8>, link: nat): (found: nat)
    requires link <= KEYWORDS
    ensures found <= link
    decreases link
  {
    if link == 0 then 0
    else
      Bounds(link - 1);
      if Matches(z, link - 1) then link else Walk(z, ANext(link - 1))
  }

  lemma {:induction false} WalkMatches(z: seq<bv8>, link: nat)
    requires link <= KEYWORDS && Walk(z, link) != 0
    ensures InText(Walk(z, link) - 1) && Matches(z, Walk(z, link) - 1)
    decreases link
  {
    Bounds(link - 1);
    if !Matches(z, link - 1) {
      WalkMatches(z, ANext(link - 1));
    }
  }

  lemma DifferentNotBoth(z: seq<bv8>, a: nat, b: nat)
    requires a < KEYWORDS && b < KEYWORDS && InText(a) && InText(b)
    requires Differ(a, b) && Matches(z, b)
    ensures !Matches(z, a)
  {
    if ALen(a) == ALen(b) {
      var p: nat :| p < Width(ALen(b)) && DifferAt(a, b, p);
      assert Mask(z[p]) == ZText(AOffset(b) + p);
    } else {
      SameLength(ALen(a), ALen(b));
    }
  }

  lemma SameLength(m: bv32, n: bv32)
    ensures Width(m) == Width(n) <==> m == n
  {
    if Width(m) == Width(n) {
      assert (m as int) as bv32 == m && (n as int) as bv32 == n;
    }
  }

  lemma {:induction false} WalkFinds(z: seq<bv8>, link: nat, i: nat)
    requires link <= KEYWORDS && i < KEYWORDS && InText(i) && Matches(z, i) && Leads(link, i)
    ensures Walk(z, link) == i + 1
    decreases link
  {
    Bounds(link - 1);
    if link != i + 1 {
      DifferentNotBoth(z, link - 1, i);
      WalkFinds(z, ANext(link - 1), i);
    }
  }

  /** Masking and lower-casing agree with each other on letters, so the hash ignores case. */
  lemma HashIgnoresCase(c: bv8, k: bv8, d: bv8, l: bv8, n: bv32)
    requires Mask(c) == k && KeywordByte(k) && k != 95
    requires Mask(d) == l && KeywordByte(l) && l != 95
    ensures Hash(c, d, n) == Hash(k, l, n)
  {
    hide Lower, Mask, Mix, Width;
    LowerIgnoresCase(c, k);
    LowerIgnoresCase(d, l);
  }

  lemma LowerIgnoresCase(c: bv8, k: bv8)
    requires Mask(c) == k && KeywordByte(k) && k != 95
    ensures Lower(c) == Lower(k)
  {
  }

  lemma AtLeastTwo(n: bv32)
    ensures 2 <= n <==> 2 <= Width(n)
  {
  }

  lemma MatchStartsRight(z: seq<bv8>, n: bv32, i: nat)
    requires i < KEYWORDS && InText(i) && Matches(z, i) && |z| == Width(n)
    ensures |z| >= 2
    ensures Leads(AHash(Hash(z[0], z[|z| - 1], n)), i)
  {
    hide ZText, AOffset, ALen, AHash, Hash, Leads, Width, Mask, Found, Matches, InText, Lower;
    EveryKeywordFound(i);
    SameLength(n, ALen(i));
    AtLeastTwo(n);
    assert |z| == Width(ALen(i)) by { MatchesAt(z, i, 0); }
    var last := |z| - 1;
    MatchesAt(z, i, 0);
    MatchesAt(z, i, last);
    FoundLeads(i);
    HashIgnoresCase(z[0], ZText(AOffset(i)), z[last], ZText(AOffset(i) + last), n);
  }

  lemma MatchesAt(z: seq<bv8>, i: nat, j: nat)
    requires i < KEYWORDS && InText(i) && Matches(z, i)
    ensures |z| == Width(ALen(i)) && AOffset(i) + |z| <= TEXT_LENGTH
    ensures j < |z| ==> Mask(z[j]) == ZText(AOffset(i) + j)
  {
    hide ZText, AOffset, ALen, Mask, Width;
  }

  lemma FoundLeads(i: nat)
    requires i < KEYWORDS && Found(i)
    ensures InText(i) && 2 <= Width(ALen(i)) && AOffset(i) + Width(ALen(i)) <= TEXT_LENGTH
    ensures var first, last := ZText(AOffset(i)), ZText(AOffset(i) + Width(ALen(i)) - 1);
      first != 95 && last != 95 && Leads(AHash(Hash(first, last, ALen(i))), i)
  {
    hide ZText, AOffset, ALen, AHash, Hash, Leads, Width;
    AtLeastTwo(ALen(i));
  }

  /** Where the search starts, and what it finds. */
  ghost function Search(z: seq<bv8>, n: bv32): nat
    requires |z| == Width(n)
  {
    if |z| < 2 then 0 else Walk(z, AHash(Hash(z[0], z[|z| - 1], n)))
  }

  /** The search finds keyword i if and only if the loop's comparison accepts keyword i: no keyword is
      missed because of the hash, and none is shadowed by another. */
  lemma SearchExact(z: seq<bv8>, n: bv32, i: nat)
    requires |z| == Width(n) && i < KEYWORDS && InText(i)
    ensures Search(z, n) == i + 1 <==> Matches(z, i)
  {
    hide AHash, Hash, Matches, Leads, Walk, InText, Width, ALen, AOffset, ZText;
    if Matches(z, i) {
      MatchStartsRight(z, n, i);
      WalkFinds(z, AHash(Hash(z[0], z[|z| - 1], n)), i);
    } else if Search(z, n) == i + 1 {
      assert 2 <= |z|;
      WalkMatches(z, AHash(Hash(z[0], z[|z| - 1], n)));
    }
  }

  /** keywordCode.  "typ" is the code passed in; it stays unless a keyword is found. */
  method KeywordCode(z: seq<bv8>, n: bv32, typ: nat) returns (code: nat)
    requires |z| == Width(n)
    ensures code == if Search(z, n) == 0 then typ else TokenOf(Spelling(Search(z, n) - 1))
  {
    hide ZText, AOffset, ALen, AHash, ANext, ACode, Hash, Width, Mask, TokenOf, Spelling;
    code := typ;
    AtLeastTwo(n);
    if n >= 2 {
      var len := |z|;
      var link: nat := AHash(Hash(z[0], z[len - 1], n));
      while link != 0
        invariant link <= KEYWORDS && code == typ
        invariant Search(z, n) == Walk(z, link)
        decreases link
      {
        var i := link - 1;
        Bounds(i);
        SameLength(ALen(i), n);
        if ALen(i) == n {
          var j := 0;
          while j < len && Mask(z[j]) == ZText(AOffset(i) + j)
            invariant j <= len
            invariant forall k | 0 <= k < j :: Mask(z[k]) == ZText(AOffset(i) + k)
          {
            j := j + 1;
          }
          if j == len {
            code := ACode(i);
            EveryKeywordSpelled(i);
            return;
          }
        }
        link := ANext(i);
      }
    }
  }

  /** The code for z: the token of the keyword found, TK_ID if none is. */
  ghost function Lookup(z: seq<bv8>, n: bv32): nat
    requires |z| == Width(n)
  {
    if Search(z, n) == 0 then TK_ID else TokenOf(Spelling(Search(z, n) - 1))
  }

  /** sqlite3KeywordCode. */
  method KeywordOrId(z: seq<bv8>, n: bv32) returns (code: nat)
    requires |z| == Width(n)
    ensures code == Lookup(z, n)
    ensures 0x7F !in z ==> code == Linear(z, 0)
  {
    hide Search, TokenOf, Spelling;
    code := KeywordCode(z, n, TK_ID);
    if 0x7F !in z {
      LookupIsLinearSearch(z, n);
    }
  }

  // ---------------------------------------------------------------------------------------------
  // The lookup against the plain case-insensitive search of the list

  lemma MaskIsUpper(c: bv8, k: bv8)
    requires KeywordByte(k)
    ensures Mask(c) == k <==> Upper(c) == k || (k == 95 && c == 0x7F)
  {
  }

  /** One byte: the masked comparison against the packed text, and the comparison against the spelling. */
  lemma ByteAgrees(c: bv8, k: bv8, l: char)
    requires KeywordByte(k) && k as int == l as int
    ensures Mask(c) == k <==> Upper(c) as int == l as int || (c == 0x7F && l == '_')
  {
    MaskIsUpper(c, k);
    assert k == 95 <==> l == '_';
    SameByte(Upper(c), k);
  }

  lemma SameByte(a: bv8, b: bv8)
    ensures a == b <==> a as int == b as int
  {
    if a as int == b as int {
      assert (a as int) as bv8 == a && (b as int) as bv8 == b;
    }
  }

  /** The loop accepts z as keyword i, though z is not that keyword, exactly when z differs from the
      keyword only by DEL bytes in place of underscores. */
  lemma OnlyDelIsMistaken(z: seq<bv8>, i: nat)
    requires i < KEYWORDS && InText(i)
    ensures Matches(z, i) <==> IsKeyword(z, i) || Mistaken(z, i)
  {
    EveryKeywordSpelled(i);
    hide ALen, AOffset, Spelling, Mask, Upper;
    if |z| == |Spelling(i)| {
      forall j | 0 <= j < |z|
        ensures Mask(z[j]) == ZText(AOffset(i) + j) <==>
                Upper(z[j]) as int == Spelling(i)[j] as int || (z[j] == 0x7F && Spelling(i)[j] == '_')
      {
        ByteAgrees(z[j], ZText(AOffset(i) + j), Spelling(i)[j]);
      }
    }
  }

  lemma NoDelNoMistake(z: seq<bv8>, i: nat)
    requires i < KEYWORDS && 0x7F !in z
    ensures !Mistaken(z, i)
  {
    hide Spelling, Upper;
  }

  lemma {:induction false} LinearFinds(z: seq<bv8>, from: nat, i: nat)
    requires from <= i < KEYWORDS && IsKeyword(z, i)
    requires forall k: nat | k < i :: !IsKeyword(z, k)
    ensures Linear(z, from) == TokenOf(Spelling(i))
    decreases i - from
  {
    hide IsKeyword, TokenOf, Spelling;
    if from < i {
      LinearFinds(z, from + 1, i);
    }
  }

  lemma {:induction false} LinearMisses(z: seq<bv8>, from: nat)
    requires from <= KEYWORDS && forall k: nat | k < KEYWORDS :: !IsKeyword(z, k)
    ensures Linear(z, from) == TK_ID
    decreases KEYWORDS - from
  {
    hide IsKeyword, TokenOf, Spelling;
    if from < KEYWORDS {
      LinearMisses(z, from + 1);
    }
  }

  /** What the search finds is the one keyword that the loop accepts. */
  lemma FoundIsKeyword(z: seq<bv8>, n: bv32, i: nat)
    requires |z| == Width(n) && i < KEYWORDS
    ensures Search(z, n) == i + 1 <==> IsKeyword(z, i) || Mistaken(z, i)
  {
    hide Search, Matches, IsKeyword, Mistaken;
    Bounds(i);
    SearchExact(z, n, i);
    OnlyDelIsMistaken(z, i);
  }

  lemma SearchInRange(z: seq<bv8>, n: bv32)
    requires |z| == Width(n)
    ensures Search(z, n) <= KEYWORDS
  {
  }

  /** For every string the lookup returns what the case-insensitive search of the list returns, the code of
      the keyword or TK_ID, unless the string is a keyword with DEL bytes for underscores; an identifier
      never is. */
  lemma LookupIsLinearSearch(z: seq<bv8>, n: bv32)
    requires |z| == Width(n)
    ensures Lookup(z, n) == Linear(z, 0) <==> forall i: nat | i < KEYWORDS :: !Mistaken(z, i)
    ensures 0x7F !in z ==> Lookup(z, n) == Linear(z, 0)
  {
    hide Search, IsKeyword, Mistaken, Matches, ACode, TokenOf, Spelling;
    SearchInRange(z, n);
    forall i: nat | i < KEYWORDS
      ensures Search(z, n) == i + 1 <==> IsKeyword(z, i) || Mistaken(z, i)
      ensures 0x7F !in z ==> !Mistaken(z, i)
    {
      FoundIsKeyword(z, n, i);
      if 0x7F !in z {
        NoDelNoMistake(z, i);
      }
    }
    if Search(z, n) == 0 {
      LinearMisses(z, 0);
    } else {
      var i := Search(z, n) - 1;
      EveryKeywordSpelled(i);
      if IsKeyword(z, i) {
        LinearFinds(z, 0, i);
        assert !Mistaken(z, i) by { NotBoth(z, i); }
      } else {
        LinearMisses(z, 0);
      }
    }
  }

  lemma NotBoth(z: seq<bv8>, i: nat)
    requires i < KEYWORDS && IsKeyword(z, i)
    ensures !Mistaken(z, i)
  {
    hide IsKeyword;
  }

  /** Such a string exists: CURRENT_DATE with a DEL for its underscore is taken for the keyword. */
  lemma DelIsMistaken() returns (z: seq<bv8>)
    ensures |z| == Width(12) && Spelling(71) == "CURRENT_DATE"
    ensures Mistaken(z, 71) && Lookup(z, 12) != Linear(z, 0)
  {
    assert Spelling(71) == "CURRENT_DATE" && AOffset(71) == 278;
    z := seq(12, j requires 0 <= j < 12 => if j == 7 then 0x7F else ZText(278 + j));
    assert Mistaken(z, 71) by { DelMistaken(z); }
    LookupIsLinearSearch(z, 12);
  }

  lemma DelMistaken(z: seq<bv8>)
    requires Spelling(71) == "CURRENT_DATE" && AOffset(71) == 278 && |z| == 12
    requires forall j | 0 <= j < 12 :: z[j] == if j == 7 then 0x7F else ZText(278 + j)
    ensures Mistaken(z, 71)
  {
    EveryKeywordSpelled(71);
    hide ZText, Spelling, AOffset, ALen;
    assert Upper(z[7]) as int != Spelling(71)[7] as int;
    forall j | 0 <= j < 12 && j != 7
      ensures Upper(z[j]) as int == Spelling(71)[j] as int
    {
      KeywordIsUpper(ZText(278 + j));
    }
  }

  lemma KeywordIsUpper(k: bv8)
    requires KeywordByte(k)
    ensures Upper(k) == k
  {
  }
}
