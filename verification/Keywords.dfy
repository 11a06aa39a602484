/** The keyword recognizer: a hash lookup that is meant to agree with a scan of a plain list. */
module Keywords {
  import opened KeywordTables
  import opened KeywordCodes
  import opened Tokens

  const TK_ID: nat := 55
  const DEL: char := '\U{7F}'

  // ---- the plain list ----

  /** ASCII upper-casing. */
  function ToUpper(c: char): char {
    if 'a' <= c <= 'z' then c - 32 as char else c
  }

  predicate SameWord(z: string, name: string) {
    |z| == |name| && forall j :: 0 <= j < |z| ==> ToUpper(z[j]) == name[j]
  }

  /** The code of the first keyword from number `i` on that the word is, ignoring case. */
  function Scan(z: string, i: nat): nat
    requires i <= N_KEYWORDS
    decreases N_KEYWORDS - i
  {
    if i == N_KEYWORDS then TK_ID
    else if SameWord(z, Keyword(i)) then CodeAt(i)
    else Scan(z, i + 1)
  }

  // ---- the recognizer ----

  /** `c & ~0x20` */
  function Masked(c: char): char {
    if (c as int / 32) % 2 == 1 then (c as int - 32) as char else c
  }

  predicate MaskedWord(z: string, name: string) {
    |z| == |name| && forall j :: 0 <= j < |z| ==> Masked(z[j]) == name[j]
  }

  predicate IsWord(z: string) {
    |z| < 0x8000_0000 && forall j :: 0 <= j < |z| ==> IsByte(z[j])
  }

  function HashOf(z: string): nat
    requires IsWord(z) && |z| >= 2
  {
    Bucket(z[0], z[|z| - 1], |z|)
  }

  /** `code` is what masked comparison against the whole list gives. */
  ghost predicate Recognized(z: string, code: nat) {
    if exists i :: 0 <= i < N_KEYWORDS && MaskedWord(z, Keyword(i))
    then forall i :: 0 <= i < N_KEYWORDS && MaskedWord(z, Keyword(i)) ==> code == CodeAt(i)
    else code == TK_ID
  }

  /** The code is that of the token which a keyword that the word is stands for, or that of an
      identifier when the word is no keyword. */
  ghost predicate NamesToken(z: string, code: nat) {
    && code < N_TOKENS
    && if exists i :: 0 <= i < N_KEYWORDS && MaskedWord(z, Keyword(i))
       then forall i :: 0 <= i < N_KEYWORDS && MaskedWord(z, Keyword(i)) ==> Stands(TokenAt(code), Keyword(i))
       else TokenAt(code) == "ID"
  }

  /** The codes of the table are those of the tokens by name. */
  lemma RecognizedNames(z: string, code: nat)
    requires Recognized(z, code)
    ensures NamesToken(z, code)
  {
    IdName();
    hide Keyword, CodeAt, TokenAt, Stands, MaskedWord;
    if i :| 0 <= i < N_KEYWORDS && MaskedWord(z, Keyword(i)) {
      forall i | 0 <= i < N_KEYWORDS && MaskedWord(z, Keyword(i))
        ensures code < N_TOKENS && Stands(TokenAt(code), Keyword(i))
      {
        AllNamed(i);
      }
    }
  }

  lemma IdName()
    ensures TokenAt(TK_ID) == "ID"
  {
  }

  /** Walks the bucket of the word; the last argument of the C function is the result here. */
  method KeywordCode(z: string) returns (id: nat)
    requires IsWord(z)
    ensures Recognized(z, id) && NamesToken(z, id)
  {
    hide Recognized, NamesToken;
    hide Keyword, CodeAt, LenAt, OffsetAt, TextAt, NextAt, HashAt, Bucket;
    id := TK_ID;
    if |z| >= 2 {
      var link: nat := HashAt(HashOf(z));
      HashInRange(HashOf(z));
      StartsInBucket(z);
      while link > 0
        invariant link <= N_KEYWORDS && id == TK_ID
        invariant forall i :: 0 <= i < N_KEYWORDS && MaskedWord(z, Keyword(i)) ==> Reaches(link, i)
      {
        var i := link - 1;
        AllSpelled(i);
        NextDecreases(i);
        if LenAt(i) == |z| {
          var j := 0;
          while j < |z| && Masked(z[j]) == TextAt(OffsetAt(i) + j)
            invariant 0 <= j <= |z|
            invariant forall k :: 0 <= k < j ==> Masked(z[k]) == TextAt(OffsetAt(i) + k)
          {
            j := j + 1;
          }
          if j == |z| {
            id := CodeAt(i);
            Hit(z, i);
            RecognizedNames(z, id);
            return;
          }
          assert Masked(z[j]) != Keyword(i)[j];
        }
        link := NextAt(i);
      }
    } else {
      TooShort(z);
    }
    Missed(z);
    RecognizedNames(z, id);
  }

  lemma Missed(z: string)
    requires forall i :: 0 <= i < N_KEYWORDS ==> !MaskedWord(z, Keyword(i))
    ensures Recognized(z, TK_ID)
  {
  }

  lemma TooShort(z: string)
    requires |z| < 2
    ensures forall i :: 0 <= i < N_KEYWORDS ==> !MaskedWord(z, Keyword(i))
  {
    hide Keyword;
    forall i | 0 <= i < N_KEYWORDS ensures !MaskedWord(z, Keyword(i)) {
      AllHomed(i);
    }
  }

  /** A word that is keyword `i` hashes to that keyword's bucket. */
  lemma StartsInBucket(z: string)
    requires IsWord(z) && |z| >= 2
    ensures HashAt(HashOf(z)) <= N_KEYWORDS
    ensures forall i :: 0 <= i < N_KEYWORDS && MaskedWord(z, Keyword(i)) ==> Reaches(HashAt(HashOf(z)), i)
  {
    hide Keyword, HashAt, Xor;
    HashInRange(HashOf(z));
    forall i | 0 <= i < N_KEYWORDS && MaskedWord(z, Keyword(i)) ensures Reaches(HashAt(HashOf(z)), i) {
      AllHomed(i);
      AllReachable(i);
      SameCharMap(z[0], Keyword(i)[0]);
      SameCharMap(z[|z| - 1], Keyword(i)[|z| - 1]);
    }
  }

  lemma SameCharMap(c: char, k: char)
    requires IsByte(c) && Masked(c) == k && 'A' <= k <= 'Z'
    ensures CharMap(c) == CharMap(k)
  {
  }

  /** No word is two different keywords. */
  lemma SameName(z: string, x: string, y: string)
    requires MaskedWord(z, x) && MaskedWord(z, y)
    ensures x == y
  {
  }

  /** A hit is the only keyword that the word is. */
  lemma Hit(z: string, i: nat)
    requires i < N_KEYWORDS && MaskedWord(z, Keyword(i))
    requires forall k :: 0 <= k < N_KEYWORDS && MaskedWord(z, Keyword(k)) ==> Reaches(i + 1, k)
    ensures Recognized(z, CodeAt(i))
  {
    hide Keyword, CodeAt, LenAt, OffsetAt, TextAt, NextAt;
    forall k | 0 <= k < N_KEYWORDS && MaskedWord(z, Keyword(k)) ensures k == i {
      SameName(z, Keyword(i), Keyword(k));
      AllSpelled(i);
      AllSpelled(k);
      assert Reaches(i + 1, k);
    }
  }

  // ---- agreement with the list ----

  /** What the word becomes when the one byte that masking confuses is read as underscore. */
  function Underscored(z: string): string {
    seq(|z|, j requires 0 <= j < |z| => if z[j] == DEL then '_' else z[j])
  }

  lemma MaskedIsUnderscored(z: string, i: nat)
    requires IsWord(z) && i < N_KEYWORDS
    ensures MaskedWord(z, Keyword(i)) <==> SameWord(Underscored(z), Keyword(i))
  {
    hide Keyword;
    AllLetters(i);
    if |z| == |Keyword(i)| {
      forall j | 0 <= j < |z|
        ensures Masked(z[j]) == Keyword(i)[j] <==> ToUpper(Underscored(z)[j]) == Keyword(i)[j]
      {
        MaskOneChar(z[j], Keyword(i)[j]);
      }
    }
  }

  lemma MaskOneChar(c: char, k: char)
    requires IsByte(c) && KeywordChar(k)
    ensures Masked(c) == k <==> ToUpper(if c == DEL then '_' else c) == k
  {
  }

  lemma AllLetters(i: nat)
    requires i < N_KEYWORDS
    ensures forall j :: 0 <= j < |Keyword(i)| ==> KeywordChar(Keyword(i)[j])
  {
    hide Keyword, LenAt, OffsetAt, TextAt;
    AllSpelled(i);
    forall j | 0 <= j < |Keyword(i)| ensures KeywordChar(Keyword(i)[j]) {
      TextIsLetters(OffsetAt(i) + j);
    }
  }

  /** The scan answers what comparing with every keyword answers. */
  lemma {:induction false} ScanIsRecognized(z: string, i: nat)
    requires i <= N_KEYWORDS
    ensures Scan(z, i) == TK_ID <==> forall k :: i <= k < N_KEYWORDS ==> !SameWord(z, Keyword(k))
    ensures Scan(z, i) != TK_ID ==>
              exists k :: i <= k < N_KEYWORDS && SameWord(z, Keyword(k)) && Scan(z, i) == CodeAt(k)
    decreases N_KEYWORDS - i
  {
    hide Keyword, CodeAt, SameWord;
    if i < N_KEYWORDS {
      CodeIsNotId(i);
      ScanIsRecognized(z, i + 1);
    }
  }

  /** The recognizer is the scan of the word with DEL read as underscore. */
  lemma RecognizerIsScan(z: string, id: nat)
    requires IsWord(z) && Recognized(z, id)
    ensures id == Scan(Underscored(z), 0)
  {
    hide Keyword, CodeAt, MaskedWord, SameWord;
    var u := Underscored(z);
    ScanIsRecognized(u, 0);
    if Scan(u, 0) != TK_ID {
      var k :| 0 <= k < N_KEYWORDS && SameWord(u, Keyword(k)) && Scan(u, 0) == CodeAt(k);
      MaskedIsUnderscored(z, k);
    } else {
      forall k | 0 <= k < N_KEYWORDS ensures !MaskedWord(z, Keyword(k)) {
        MaskedIsUnderscored(z, k);
      }
    }
  }

  /** The word is keyword `k` but for a DEL in the place of its underscore. */
  ghost predicate Confused(z: string, k: nat)
    requires k < N_KEYWORDS
  {
    |z| == |Keyword(k)| > 7 && z[7] == DEL && SameWord(z[7 := '_'], Keyword(k))
  }

  /** A word with a DEL equals a keyword with its DELs read as underscores exactly when it is one
      of the three keywords with an underscore, confused. */
  lemma UnderscoredWord(z: string, k: nat)
    requires DEL in z && k < N_KEYWORDS
    ensures SameWord(Underscored(z), Keyword(k)) <==> (k == 71 || k == 99 || k == 100) && Confused(z, k)
  {
    hide Keyword;
    AllLetters(k);
    var d :| 0 <= d < |z| && z[d] == DEL;
    if SameWord(Underscored(z), Keyword(k)) {
      forall j | 0 <= j < |z| ensures z[j] == DEL ==> j == 7 && (k == 71 || k == 99 || k == 100) {
        Underscores(k, j);
      }
      assert z[d] == z[7] == DEL;
      assert Underscored(z) == z[7 := '_'];
    }
    if Confused(z, k) {
      forall j | 0 <= j < |z| ensures z[j] == DEL ==> j == 7 {
        assert j != 7 ==> z[7 := '_'][j] == z[j] && KeywordChar(Keyword(k)[j]);
      }
      assert Underscored(z) == z[7 := '_'];
    }
  }

  /** The recognizer agrees with the plain list exactly when the word is none of CURRENT_DATE,
      CURRENT_TIMESTAMP and CURRENT_TIME with a DEL for its underscore. */
  lemma RecognizerIsExact(z: string, id: nat)
    requires IsWord(z) && Recognized(z, id)
    ensures id == Scan(z, 0) <==> !Confused(z, 71) && !Confused(z, 99) && !Confused(z, 100)
  {
    hide Keyword, CodeAt, SameWord;
    RecognizerIsScan(z, id);
    if DEL !in z {
      assert Underscored(z) == z;
    } else {
      hide Confused, Underscored;
      NoDelInList(z);
      ScanIsRecognized(Underscored(z), 0);
      UnderscoredWord(z, 71);
      UnderscoredWord(z, 99);
      UnderscoredWord(z, 100);
      forall k | 0 <= k < N_KEYWORDS && SameWord(Underscored(z), Keyword(k))
        ensures (k == 71 || k == 99 || k == 100) && Confused(z, k)
      {
        UnderscoredWord(z, k);
      }
    }
  }

  /** A word with a DEL that is taken for a keyword, which the list does not contain. */
  lemma DelWordIsTaken()
    ensures var z := "CURRENT" + [DEL] + "DATE";
            IsWord(z) && Confused(z, 71) && Scan(Underscored(z), 0) != TK_ID && Scan(z, 0) == TK_ID
  {
    var z := "CURRENT" + [DEL] + "DATE";
    assert z[7] == DEL;
    var u := Underscored(z);
    assert Keyword(71) == "CURRENT_DATE";
    assert SameWord(u, Keyword(71));
    assert z[7 := '_'] == u;
    hide Keyword, CodeAt, SameWord;
    ScanIsRecognized(u, 0);
    NoDelInList(z);
  }

  lemma NoDelInList(z: string)
    requires DEL in z
    ensures Scan(z, 0) == TK_ID
  {
    hide Keyword, CodeAt;
    ScanIsRecognized(z, 0);
    forall k | 0 <= k < N_KEYWORDS ensures !SameWord(z, Keyword(k)) {
      AllLetters(k);
      var j :| 0 <= j < |z| && z[j] == DEL;
      assert ToUpper(z[j]) == DEL && !KeywordChar(DEL);
    }
  }
}
