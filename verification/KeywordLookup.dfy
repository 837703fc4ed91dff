/** sqlite3KeywordCode agrees with the plain list of keywords on every byte string. */
module KeywordLookup {
  import opened KeywordTables
  import opened KeywordHash
  import opened KeywordRows
  import opened TokenNames

  // ----- chains -----

  /** Following aNext from start (an index plus one) reaches keyword i. */
  predicate OnChain(start: nat, i: nat)
    requires start <= KEYWORDS
    decreases start
  {
    start != 0 && (start - 1 == i || OnChain(ANext(start - 1), i))
  }

  lemma {:induction false} ChainStep(start: nat, p: nat, i: nat)
    requires start <= KEYWORDS && p < KEYWORDS && OnChain(start, p) && ANext(p) == i + 1
    ensures OnChain(start, i)
    decreases start
  {
    hide ANext;
    if start - 1 == p {
      assert OnChain(ANext(p), i);
    } else {
      ChainStep(ANext(start - 1), p, i);
    }
  }

  /** Every keyword is on the chain of its bucket. */
  lemma {:induction false} BucketIsComplete(i: nat)
    requires i < KEYWORDS
    ensures OnChain(AHash(Bucket(i)), i)
    decreases KEYWORDS - i
  {
    hide AHash, ANext, Bucket, Before;
    ChainIsRight(i);
    if Before(i) != 0 {
      var p := Before(i) - 1;
      BucketIsComplete(p);
      ChainStep(AHash(Bucket(p)), p, i);
    }
  }

  /** A string that matches keyword i hashes to the bucket of keyword i. */
  lemma MatchHashes(z: seq<bv8>, i: nat)
    requires i < KEYWORDS && Matches(z, i)
    ensures |z| >= 2 && Hash(z) == Bucket(i)
  {
    hide Mix, Text, AOffset, Bucket, Code, CharMap, Small, Int32, ClearBit5;
    HashIsRight(i);
    EitherCase(z[0], CharAt(i, 0));
    EitherCase(z[|z| - 1], CharAt(i, |z| - 1));
  }

  lemma ApartMeansUnlike(z: seq<bv8>, i: nat, j: nat)
    requires i < KEYWORDS && j < KEYWORDS && Matches(z, i) && Matches(z, j)
    ensures !Apart(i, j)
  {
    hide Text, AOffset, ALen, Code, ClearBit5;
    forall k: nat
      ensures !DifferAt(i, j, k)
    {
    }
  }

  lemma {:induction false} ApartFromAll(z: seq<bv8>, i: nat, start: nat, j: nat)
    requires i < KEYWORDS && start <= KEYWORDS && ApartFrom(i, start)
    requires OnChain(start, j) && j < KEYWORDS && Matches(z, i)
    ensures !Matches(z, j)
    decreases start
  {
    hide Matches, Apart, ANext;
    if start - 1 == j {
      if Matches(z, j) {
        ApartMeansUnlike(z, i, j);
      }
    } else {
      ApartFromAll(z, i, ANext(start - 1), j);
    }
  }

  /** Of two keywords on one chain, one comes after the other. */
  lemma {:induction false} OneFollows(start: nat, i: nat, j: nat)
    requires start <= KEYWORDS && i < KEYWORDS && j < KEYWORDS && i != j
    requires OnChain(start, i) && OnChain(start, j)
    ensures OnChain(ANext(i), j) || OnChain(ANext(j), i)
    decreases start
  {
    hide ANext;
    if start - 1 != i && start - 1 != j {
      OneFollows(ANext(start - 1), i, j);
    }
  }

  /** At most one keyword matches a string. */
  lemma KeywordIsUnique(z: seq<bv8>, i: nat, j: nat)
    requires i < KEYWORDS && j < KEYWORDS && Matches(z, i) && Matches(z, j)
    ensures i == j
  {
    hide Matches, Hash, Bucket, AHash, ANext, OnChain, ApartFrom;
    if i != j {
      MatchHashes(z, i);
      MatchHashes(z, j);
      BucketIsComplete(i);
      BucketIsComplete(j);
      OneFollows(AHash(Hash(z)), i, j);
      KeywordsDiffer(i);
      KeywordsDiffer(j);
      if OnChain(ANext(i), j) {
        ApartFromAll(z, i, ANext(i), j);
      } else {
        ApartFromAll(z, j, ANext(j), i);
      }
    }
  }

  /** The packed text and the list agree on what matches. */
  lemma MatchesList(z: seq<bv8>, i: nat)
    requires i < KEYWORDS
    ensures Matches(z, i) <==> SameLetters(z, Word(i))
  {
    hide Text, AOffset, ALen, Word, Code, ClearBit5;
    TextIsRight(i);
    if Matches(z, i) {
      forall k | 0 <= k < |z|
        ensures ClearBit5(z[k]) == Code(Word(i)[k])
      {
        assert CharAt(i, k) == Word(i)[k];
      }
    }
    if SameLetters(z, Word(i)) {
      forall k | 0 <= k < |z|
        ensures ClearBit5(z[k]) == Code(CharAt(i, k))
      {
        assert CharAt(i, k) == Word(i)[k];
      }
    }
  }

  // ----- the lookup -----

  /** Compare z with keyword i byte by byte. */
  method Compare(z: seq<bv8>, i: nat) returns (same: bool)
    requires i < KEYWORDS && |z| == ALen(i)
    ensures same == Matches(z, i)
  {
    hide Text, AOffset, ALen, Code, ClearBit5;
    var j := 0;
    while j < |z| && ClearBit5(z[j]) == Code(Text(AOffset(i) + j))
      invariant 0 <= j <= |z|
      invariant forall k :: 0 <= k < j ==> ClearBit5(z[k]) == Code(CharAt(i, k))
    {
      j := j + 1;
    }
    same := j == |z|;
    assert !same ==> ClearBit5(z[j]) != Code(CharAt(i, j));
  }

  /** The code of the keyword that matches z, or else id. */
  method KeywordCode(z: seq<bv8>, id: nat) returns (pType: nat)
    ensures forall k :: 0 <= k < KEYWORDS && Matches(z, k) ==>
      pType == ACode(k) && TokenName(pType) == TypeFor(Word(k))
    ensures (forall k :: 0 <= k < KEYWORDS ==> !Matches(z, k)) ==> pType == id
  {
    hide Matches, ALen, ANext, AHash, ACode, Hash, Bucket, TokenName, TypeFor, Word;
    pType := id;
    forall k | 0 <= k < KEYWORDS && Matches(z, k)
      ensures |z| >= 2 && OnChain(AHash(Hash(z)), k)
    {
      MatchHashes(z, k);
      BucketIsComplete(k);
    }
    if |z| >= 2 {
      var i: int := AHash(Hash(z)) - 1;
      while i >= 0
        invariant -1 <= i < KEYWORDS
        invariant pType == id
        invariant forall k :: 0 <= k < KEYWORDS && Matches(z, k) ==> OnChain(i + 1, k)
        decreases i + 1
      {
        var same := false;
        if ALen(i) == |z| {
          same := Compare(z, i);
        } else {
          OtherLength(z, i);
        }
        if same {
          pType := ACode(i);
          CodeIsNamed(i);
          forall k | 0 <= k < KEYWORDS && Matches(z, k)
            ensures k == i
          {
            KeywordIsUnique(z, i, k);
          }
          return;
        }
        i := ANext(i) - 1;
      }
    }
  }

  lemma OtherLength(z: seq<bv8>, i: nat)
    requires i < KEYWORDS && |z| != ALen(i)
    ensures !Matches(z, i)
  {
  }

  /** For every byte string: the code of the listed keyword it spells in either case, where 0x7F
      also passes for an underscore, and otherwise TK_ID.  The code is the number of the token
      type that the keyword calls for. */
  method Sqlite3KeywordCode(z: seq<bv8>) returns (id: nat)
    ensures forall k :: 0 <= k < KEYWORDS && SameLetters(z, Word(k)) ==>
      id == ACode(k) && TokenName(id) == TypeFor(Word(k))
    ensures (forall k :: 0 <= k < KEYWORDS ==> !SameLetters(z, Word(k))) ==>
      id == TK_ID && TokenName(id) == "ID"
  {
    hide Matches, SameLetters, Word, ACode, TokenName, TypeFor;
    IdIsNamed();
    id := KeywordCode(z, TK_ID);
    forall k | 0 <= k < KEYWORDS
      ensures Matches(z, k) <==> SameLetters(z, Word(k))
    {
      MatchesList(z, k);
    }
  }
}
