/** The keyword lookup: hash buckets, chains and overlapping text, proved to agree with the
    plain list of keywords on every byte string. */
module KeywordHash {
  import opened KeywordTables

  // ----- bytes -----

  /** The ASCII codes of the characters in keywords. */
  function Code(c: char): bv8 {
    match c
    case 'A' => 65 case 'B' => 66 case 'C' => 67 case 'D' => 68 case 'E' => 69 case 'F' => 70 case 'G' => 71
    case 'H' => 72 case 'I' => 73 case 'J' => 74 case 'K' => 75 case 'L' => 76 case 'M' => 77 case 'N' => 78
    case 'O' => 79 case 'P' => 80 case 'Q' => 81 case 'R' => 82 case 'S' => 83 case 'T' => 84 case 'U' => 85
    case 'V' => 86 case 'W' => 87 case 'X' => 88 case 'Y' => 89 case 'Z' => 90 case _ => 95
  }

  lemma CodeIsAscii(c: char)
    requires 'A' <= c <= 'Z' || c == '_'
    ensures Code(c) as int == c as int
  {
  }

  /** z & ~0x20 */
  function ClearBit5(b: bv8): bv8 { b & !0x20 }

  /** charMap: upper case to lower case, everything else unchanged. */
  function CharMap(b: bv8): bv8 {
    if 65 <= b <= 90 then b + 32 else b
  }

  /** The value of charMap on either case of a letter. */
  function Small(c: char): bv8 {
    match c
    case 'A' => 97 case 'B' => 98 case 'C' => 99 case 'D' => 100 case 'E' => 101 case 'F' => 102 case 'G' => 103
    case 'H' => 104 case 'I' => 105 case 'J' => 106 case 'K' => 107 case 'L' => 108 case 'M' => 109 case 'N' => 110
    case 'O' => 111 case 'P' => 112 case 'Q' => 113 case 'R' => 114 case 'S' => 115 case 'T' => 116 case 'U' => 117
    case 'V' => 118 case 'W' => 119 case 'X' => 120 case 'Y' => 121 case 'Z' => 122 case _ => 0
  }

  lemma EitherCase(b: bv8, c: char)
    requires 'A' <= c <= 'Z' && ClearBit5(b) == Code(c)
    ensures CharMap(b) == Small(c)
  {
  }

  /** Clearing bit 5 also makes byte 0x7F pass for the underscore; only letters lose their case. */
  lemma UnderscoreAndDelete(b: bv8)
    ensures ClearBit5(b) == Code('_') <==> b == 0x5F || b == 0x7F
  {
  }

  /** z is w, up to bit 5 of each byte. */
  predicate SameLetters(z: seq<bv8>, w: string) {
    |z| == |w| && forall k :: 0 <= k < |w| ==> ClearBit5(z[k]) == Code(w[k])
  }

  // ----- the hash -----

  /** An int as its 32-bit pattern; the lengths of keywords are spelled out. */
  function Int32(n: nat): bv32 {
    match n
    case 2 => 2 case 3 => 3 case 4 => 4 case 5 => 5 case 6 => 6 case 7 => 7 case 8 => 8 case 9 => 9
    case 10 => 10 case 11 => 11 case 12 => 12 case 13 => 13 case 17 => 17
    case _ => (n % 0x1_0000_0000) as bv32
  }

  function Mix(first: bv8, last: bv8, n: bv32): bv32 {
    ((first as bv32 * 4) ^ (last as bv32 * 3) ^ n) % BUCKETS
  }

  /** The bucket of a string. */
  function Hash(z: seq<bv8>): bv32
    requires |z| >= 2
  {
    Mix(CharMap(z[0]), CharMap(z[|z| - 1]), Int32(|z|))
  }

  // ----- keywords in the packed text -----

  /** Character k of keyword i. */
  function CharAt(i: nat, k: nat): char
    requires i < KEYWORDS
  {
    Text(AOffset(i) + k)
  }

  /** z is keyword i as the packed text has it. */
  predicate Matches(z: seq<bv8>, i: nat)
    requires i < KEYWORDS
  {
    |z| == ALen(i) && forall k :: 0 <= k < |z| ==> ClearBit5(z[k]) == Code(CharAt(i, k))
  }

  /** The packed text reads w from offset `from` on. */
  predicate Reads(from: nat, w: string) {
    from + |w| <= TEXT && forall k :: 0 <= k < |w| ==> Text(from + k) == w[k]
  }

  /** Keyword i of the tables is w. */
  predicate Spells(i: nat, w: string)
    requires i < KEYWORDS
  {
    |w| == ALen(i) && Reads(AOffset(i), w)
  }

  /** The bucket of a word of n letters, from its first and last. */
  function HashOf(first: char, last: char, n: nat): bv32 {
    Mix(Small(first), Small(last), Int32(n))
  }

  predicate Letter(c: char) { 'A' <= c <= 'Z' }

  /** Keyword i begins and ends with letters, which with its length give its bucket. */
  ghost predicate Hashed(i: nat)
    requires i < KEYWORDS
  {
    && Letter(CharAt(i, 0)) && Letter(CharAt(i, ALen(i) - 1))
    && HashOf(CharAt(i, 0), CharAt(i, ALen(i) - 1), ALen(i)) == Bucket(i)
  }

  /** Keyword i is the first of its bucket, or follows a later keyword of the same bucket. */
  ghost predicate Linked(i: nat)
    requires i < KEYWORDS
  {
    if Before(i) == 0 then AHash(Bucket(i)) == i + 1
    else i + 1 < Before(i) <= KEYWORDS && ANext(Before(i) - 1) == i + 1 && Bucket(Before(i) - 1) == Bucket(i)
  }

  /** Keyword i is w, and w hashes to the bucket of keyword i. */
  lemma Row(i: nat, w: string, first: char, last: char, n: nat)
    requires i < KEYWORDS && Spells(i, w)
    requires n == |w| >= 2 && first == w[0] && last == w[n - 1]
    requires Letter(first) && Letter(last) && HashOf(first, last, n) == Bucket(i)
    ensures Hashed(i)
  {
    assert CharAt(i, 0) == w[0];
    assert CharAt(i, ALen(i) - 1) == w[|w| - 1];
  }

  /** Two keywords that differ at byte k are apart. */
  lemma Twin(i: nat, w: string, j: nat, v: string, k: nat)
    requires i < KEYWORDS && j < KEYWORDS && Spells(i, w) && Spells(j, v)
    requires k < |w| == |v| && Code(w[k]) != Code(v[k])
    ensures Apart(i, j)
  {
    hide Text, Code;
    assert CharAt(i, k) == w[k] && CharAt(j, k) == v[k];
    assert DifferAt(i, j, k);
  }

  predicate DifferAt(i: nat, j: nat, k: nat)
    requires i < KEYWORDS && j < KEYWORDS
  {
    k < ALen(i) && Code(CharAt(i, k)) != Code(CharAt(j, k))
  }

  /** No byte string can match both. */
  ghost predicate Apart(i: nat, j: nat)
    requires i < KEYWORDS && j < KEYWORDS
  {
    ALen(i) != ALen(j) || exists k: nat :: DifferAt(i, j, k)
  }

  /** Keyword i is apart from all keywords of the chain that begins at start. */
  ghost predicate ApartFrom(i: nat, start: nat)
    requires i < KEYWORDS && start <= KEYWORDS
  {
    start == 0 || (Apart(i, start - 1) && ApartFrom(i, ANext(start - 1)))
  }
}
