/** The tables of the generated keyword recognizer, thirteen entries a row, and what they are
    meant to encode. All lookups go through functions of a flat index. */
module KeywordTables {

  const N_KEYWORDS: nat := 124
  const N_BUCKETS: nat := 127
  const N_TEXT: nat := 553

  /** Overlapping keyword text, eighteen characters a row. */
  const Z_TEXT: seq<string> := [
    "REINDEXEDESCAPEACH", "ECKEYBEFOREIGNOREG", "EXPLAINSTEADDATABA", "SELECTABLEFTHENDEF", "ERRABLELSEXCEPTRAN",
    "SACTIONATURALTERAI", "SEXCLUSIVEXISTSAVE", "POINTERSECTRIGGERE", "FERENCESCONSTRAINT", "OFFSETEMPORARYUNIQ",
    "UERYWITHOUTERELEAS", "EATTACHAVINGROUPDA", "TEBEGINNERECURSIVE", "BETWEENOTNULLIKECA", "SCADELETECASECOLLA",
    "TECREATECURRENT_DA", "TEDETACHIMMEDIATEJ", "OINSERTMATCHPLANAL", "YZEPRAGMABORTVALUE", "SVIRTUALIMITWHENWH",
    "ERENAMEAFTEREPLACE", "ANDEFAULTAUTOINCRE", "MENTCASTCOLUMNCOMM", "ITCONFLICTCROSSCUR", "RENT_TIMESTAMPRIMA",
    "RYDEFERREDISTINCTD", "ROPFAILFROMFULLGLO", "BYIFISNULLORDEREST", "RICTRIGHTROLLBACKR", "OWUNIONUSINGVACUUM",
    "VIEWINITIALLY"
  ]

  /** The first link of each bucket: a keyword number plus one, or zero. */
  const A_HASH: seq<seq<nat>> := [
    [76, 105, 117, 74, 0, 45, 0, 0, 82, 0, 77, 0, 0],
    [42, 12, 78, 15, 0, 116, 85, 54, 112, 0, 19, 0, 0],
    [121, 0, 119, 115, 0, 22, 93, 0, 9, 0, 0, 70, 71],
    [0, 69, 6, 0, 48, 90, 102, 0, 118, 101, 0, 0, 44],
    [0, 103, 24, 0, 17, 0, 122, 53, 23, 0, 5, 110, 25],
    [96, 0, 0, 124, 106, 60, 123, 57, 28, 55, 0, 91, 0],
    [100, 26, 0, 99, 0, 0, 0, 95, 92, 97, 88, 109, 14],
    [39, 108, 0, 81, 0, 18, 89, 111, 32, 0, 120, 80, 113],
    [62, 46, 84, 0, 0, 94, 40, 59, 114, 0, 36, 0, 0],
    [29, 0, 86, 63, 64, 0, 20, 61, 0, 56]
  ]

  /** The link that follows each keyword in its bucket. */
  const A_NEXT: seq<seq<nat>> := [
    [0, 0, 0, 0, 4, 0, 0, 0, 0, 0, 0, 0, 0],
    [0, 2, 0, 0, 0, 0, 0, 0, 13, 0, 0, 0, 0],
    [0, 7, 0, 0, 0, 0, 0, 0, 0, 0, 0, 0, 0],
    [0, 0, 0, 0, 33, 0, 21, 0, 0, 0, 0, 0, 50],
    [0, 43, 3, 47, 0, 0, 0, 0, 30, 0, 58, 0, 38],
    [0, 0, 0, 1, 66, 0, 0, 67, 0, 41, 0, 0, 0],
    [0, 0, 0, 49, 65, 0, 0, 0, 0, 31, 52, 16, 34],
    [10, 0, 0, 0, 0, 0, 0, 0, 11, 72, 79, 0, 8],
    [0, 104, 98, 0, 107, 0, 87, 0, 75, 51, 0, 27, 37],
    [73, 83, 0, 35, 68, 0, 0]
  ]

  /** Length of each keyword, and where it starts in the text. */
  const A_LEN: seq<seq<nat>> := [
    [7, 7, 5, 4, 6, 4, 5, 3, 6, 7, 3, 6, 6],
    [7, 7, 3, 8, 2, 6, 5, 4, 4, 3, 10, 4, 6],
    [11, 6, 2, 7, 5, 5, 9, 6, 9, 9, 7, 10, 10],
    [4, 6, 2, 3, 9, 4, 2, 6, 5, 7, 4, 5, 7],
    [6, 6, 5, 6, 5, 5, 9, 7, 7, 3, 2, 4, 4],
    [7, 3, 6, 4, 7, 6, 12, 6, 9, 4, 6, 5, 4],
    [7, 6, 5, 6, 7, 5, 4, 5, 6, 5, 7, 3, 7],
    [13, 2, 2, 4, 6, 6, 8, 5, 17, 12, 7, 8, 8],
    [2, 4, 4, 4, 4, 4, 2, 2, 6, 5, 8, 5, 8],
    [3, 5, 5, 6, 4, 9, 3]
  ]

  const A_OFFSET: seq<seq<nat>> := [
    [0, 2, 2, 8, 9, 14, 16, 20, 23, 25, 25, 29, 33],
    [36, 41, 46, 48, 53, 54, 59, 62, 65, 67, 69, 78, 81],
    [86, 91, 95, 96, 101, 105, 109, 117, 122, 128, 136, 142, 152],
    [159, 162, 162, 165, 167, 167, 171, 176, 179, 184, 184, 188, 192],
    [199, 204, 209, 212, 218, 221, 225, 234, 240, 240, 240, 243, 246],
    [250, 251, 255, 261, 265, 272, 278, 290, 296, 305, 307, 313, 318],
    [320, 327, 332, 337, 343, 349, 354, 358, 361, 367, 371, 378, 380],
    [387, 389, 391, 400, 404, 410, 416, 424, 429, 429, 445, 452, 459],
    [460, 467, 471, 475, 479, 483, 486, 488, 490, 496, 500, 508, 513],
    [521, 524, 529, 534, 540, 544, 549]
  ]

  /** Token code of each keyword. */
  const A_CODE: seq<seq<nat>> := [
    [93, 56, 140, 70, 42, 72, 104, 79, 63, 113, 74, 75, 31],
    [2, 77, 142, 69, 24, 119, 16, 98, 138, 11, 112, 139, 117],
    [6, 58, 107, 98, 141, 83, 9, 20, 13, 118, 88, 105, 99],
    [131, 81, 80, 111, 21, 21, 27, 103, 3, 25, 92, 98, 14],
    [62, 128, 127, 110, 5, 98, 84, 32, 35, 19, 78, 101, 31],
    [65, 61, 109, 136, 53, 17, 95, 71, 8, 124, 108, 30, 4],
    [60, 82, 57, 120, 91, 129, 137, 130, 94, 59, 85, 28, 100],
    [106, 15, 33, 66, 67, 10, 68, 98, 95, 95, 102, 7, 121],
    [29, 114, 73, 123, 98, 31, 64, 18, 34, 126, 86, 98, 12],
    [87, 115, 125, 89, 90, 76, 116]
  ]

  /** The plain keyword list that the tables encode. */
  const KEYWORDS: seq<seq<string>> := [
    ["REINDEX", "INDEXED", "INDEX", "DESC", "ESCAPE", "EACH", "CHECK", "KEY", "BEFORE", "FOREIGN",
     "FOR", "IGNORE", "REGEXP"],
    ["EXPLAIN", "INSTEAD", "ADD", "DATABASE", "AS", "SELECT", "TABLE", "LEFT", "THEN", "END",
     "DEFERRABLE", "ELSE", "EXCEPT"],
    ["TRANSACTION", "ACTION", "ON", "NATURAL", "ALTER", "RAISE", "EXCLUSIVE", "EXISTS",
     "SAVEPOINT", "INTERSECT", "TRIGGER", "REFERENCES", "CONSTRAINT"],
    ["INTO", "OFFSET", "OF", "SET", "TEMPORARY", "TEMP", "OR", "UNIQUE", "QUERY", "WITHOUT",
     "WITH", "OUTER", "RELEASE"],
    ["ATTACH", "HAVING", "GROUP", "UPDATE", "BEGIN", "INNER", "RECURSIVE", "BETWEEN", "NOTNULL",
     "NOT", "NO", "NULL", "LIKE"],
    ["CASCADE", "ASC", "DELETE", "CASE", "COLLATE", "CREATE", "CURRENT_DATE", "DETACH",
     "IMMEDIATE", "JOIN", "INSERT", "MATCH", "PLAN"],
    ["ANALYZE", "PRAGMA", "ABORT", "VALUES", "VIRTUAL", "LIMIT", "WHEN", "WHERE", "RENAME",
     "AFTER", "REPLACE", "AND", "DEFAULT"],
    ["AUTOINCREMENT", "TO", "IN", "CAST", "COLUMN", "COMMIT", "CONFLICT", "CROSS",
     "CURRENT_TIMESTAMP", "CURRENT_TIME", "PRIMARY", "DEFERRED", "DISTINCT"],
    ["IS", "DROP", "FAIL", "FROM", "FULL", "GLOB", "BY", "IF", "ISNULL", "ORDER", "RESTRICT", "RIGHT", "ROLLBACK"],
    ["ROW", "UNION", "USING", "VACUUM", "VIEW", "INITIALLY", "ALL"]
  ]

  /** The bucket of each keyword. */
  const HOME: seq<seq<nat>> := [
    [40, 16, 74, 62, 62, 41, 73, 69, 34, 86, 78, 14, 31],
    [90, 16, 44, 56, 96, 23, 123, 105, 31, 60, 54, 64, 79],
    [18, 73, 117, 124, 88, 99, 51, 76, 26, 114, 2, 28, 91],
    [110, 103, 13, 20, 51, 5, 105, 126, 43, 8, 97, 112, 97],
    [59, 20, 74, 126, 72, 120, 111, 70, 124, 104, 120, 121, 28],
    [37, 47, 58, 40, 37, 38, 48, 47, 3, 103, 0, 10, 15],
    [45, 102, 94, 8, 28, 106, 19, 119, 98, 88, 97, 44, 76],
    [86, 32, 109, 85, 65, 87, 89, 81, 78, 48, 45, 53, 69],
    [1, 69, 89, 92, 89, 63, 98, 21, 103, 112, 29, 18, 2],
    [47, 28, 101, 26, 58, 71, 68]
  ]

  lemma TextShape()
    ensures |Z_TEXT| == 31 && forall r :: 0 <= r < 31 ==> |Z_TEXT[r]| == if r < 30 then 18 else 13
  {
  }

  function TextAt(k: nat): char
    requires k < N_TEXT
  {
    TextShape();
    Z_TEXT[k / 18][k % 18]
  }

  lemma HashShape()
    ensures |A_HASH| == 10 && forall r :: 0 <= r < 10 ==> |A_HASH[r]| == if r < 9 then 13 else 10
  {
  }

  function HashAt(i: nat): nat
    requires i < 127
  {
    HashShape();
    A_HASH[i / 13][i % 13]
  }

  lemma NextShape()
    ensures |A_NEXT| == 10 && forall r :: 0 <= r < 10 ==> |A_NEXT[r]| == if r < 9 then 13 else 7
  {
  }

  function NextAt(i: nat): nat
    requires i < 124
  {
    NextShape();
    A_NEXT[i / 13][i % 13]
  }

  lemma LenShape()
    ensures |A_LEN| == 10 && forall r :: 0 <= r < 10 ==> |A_LEN[r]| == if r < 9 then 13 else 7
  {
  }

  function LenAt(i: nat): nat
    requires i < 124
  {
    LenShape();
    A_LEN[i / 13][i % 13]
  }

  lemma OffsetShape()
    ensures |A_OFFSET| == 10 && forall r :: 0 <= r < 10 ==> |A_OFFSET[r]| == if r < 9 then 13 else 7
  {
  }

  function OffsetAt(i: nat): nat
    requires i < 124
  {
    OffsetShape();
    A_OFFSET[i / 13][i % 13]
  }

  lemma CodeShape()
    ensures |A_CODE| == 10 && forall r :: 0 <= r < 10 ==> |A_CODE[r]| == if r < 9 then 13 else 7
  {
  }

  function CodeAt(i: nat): nat
    requires i < 124
  {
    CodeShape();
    A_CODE[i / 13][i % 13]
  }

  lemma KeywordShape()
    ensures |KEYWORDS| == 10 && forall r :: 0 <= r < 10 ==> |KEYWORDS[r]| == if r < 9 then 13 else 7
  {
  }

  function Keyword(i: nat): string
    requires i < 124
  {
    KeywordShape();
    KEYWORDS[i / 13][i % 13]
  }

  lemma HomeShape()
    ensures |HOME| == 10 && forall r :: 0 <= r < 10 ==> |HOME[r]| == if r < 9 then 13 else 7
  {
  }

  function HomeAt(i: nat): nat
    requires i < 124
  {
    HomeShape();
    HOME[i / 13][i % 13]
  }

  // ---- the hash ----

  /** ASCII lower-casing. */
  function CharMap(c: char): nat {
    if 'A' <= c <= 'Z' then c as int + 32 else c as int
  }

  function Xor(a: nat, b: nat, c: nat): nat
    requires a < 0x1_0000_0000 && b < 0x1_0000_0000 && c < 0x1_0000_0000
  {
    (a as bv32 ^ b as bv32 ^ c as bv32) as nat
  }

  predicate IsByte(c: char) { c < '\U{0100}' }

  /** The bucket of a word with these first and last characters and this length. */
  function Bucket(first: char, last: char, n: nat): (h: nat)
    requires IsByte(first) && IsByte(last) && n < 0x8000_0000
    ensures h < N_BUCKETS
  {
    Xor(CharMap(first) * 4, CharMap(last) * 3, n) % 127
  }

  // ---- facts about the tables ----

  /** Links decrease, so every chain ends. */
  lemma NextDecreases(i: nat)
    requires i < N_KEYWORDS
    ensures NextAt(i) <= i
  {
  }

  lemma HashInRange(h: nat)
    requires h < N_BUCKETS
    ensures HashAt(h) <= N_KEYWORDS
  {
  }

  lemma CodeIsNotId(i: nat)
    requires i < N_KEYWORDS
    ensures CodeAt(i) != 55
  {
  }

  /** The text slice of keyword `i` is inside the text and spells the keyword. */
  ghost predicate Spelled(i: nat)
    requires i < N_KEYWORDS
  {
    && LenAt(i) == |Keyword(i)|
    && OffsetAt(i) + LenAt(i) <= N_TEXT
    && forall j :: 0 <= j < LenAt(i) ==> TextAt(OffsetAt(i) + j) == Keyword(i)[j]
  }

  predicate KeywordChar(c: char) { 'A' <= c <= 'Z' || c == '_' }

  ghost predicate Homed(i: nat)
    requires i < N_KEYWORDS
  {
    var z := Keyword(i);
    && 2 <= |z| < 20
    && 'A' <= z[0] <= 'Z' && 'A' <= z[|z| - 1] <= 'Z'
    && Bucket(z[0], z[|z| - 1], |z|) == HomeAt(i) < N_BUCKETS
  }

  /** Following the links from `link` meets keyword `i`, and no equal keyword before it. */
  ghost predicate Reaches(link: nat, i: nat)
    requires link <= N_KEYWORDS && i < N_KEYWORDS
    decreases link
  {
    && link > 0
    && (link == i + 1
        || (&& (LenAt(link - 1) != LenAt(i) || Keyword(link - 1) != Keyword(i))
            && NextAt(link - 1) < link
            && Reaches(NextAt(link - 1), i)))
  }

  ghost predicate Reachable(i: nat)
    requires i < N_KEYWORDS
  {
    && HomeAt(i) < N_BUCKETS
    && HashAt(HomeAt(i)) <= N_KEYWORDS
    && Reaches(HashAt(HomeAt(i)), i)
  }

  /** The character `c` places into row `r`, which may be in the next row. */
  function RowChar(r: nat, c: nat): char
    requires r < 31 && c < 36 && 18 * r + c < N_TEXT
  {
    TextShape();
    if c < 18 then Z_TEXT[r][c] else Z_TEXT[r + 1][c - 18]
  }

  lemma RowCharIsText(r: nat, c: nat)
    requires r < 31 && c < 36 && 18 * r + c < N_TEXT
    ensures TextAt(18 * r + c) == RowChar(r, c)
  {
    TextShape();
    hide Z_TEXT;
    if c < 18 {
      assert (18 * r + c) / 18 == r;
    } else {
      assert (18 * r + c) / 18 == r + 1;
    }
  }

  /** Keyword `i` is `word` and starts `c` places into row `r` of the text. */
  lemma SpelledAt(i: nat, r: nat, c: nat, word: string)
    requires i < N_KEYWORDS && r < 31 && c < 18 && OffsetAt(i) == 18 * r + c
    requires LenAt(i) == |word| <= 18 && Keyword(i) == word && 18 * r + c + |word| <= N_TEXT
    requires forall j :: 0 <= j < |word| ==> RowChar(r, c + j) == word[j]
    ensures Spelled(i)
  {
    hide RowChar, TextAt, Keyword, OffsetAt, LenAt;
    forall j | 0 <= j < LenAt(i) ensures TextAt(OffsetAt(i) + j) == Keyword(i)[j] {
      RowCharIsText(r, c + j);
      assert 18 * r + c + j == 18 * r + (c + j);
    }
  }

  lemma Spelled0(i: nat)
    requires 0 <= i < 6
    ensures Spelled(i)
  {
    hide Spelled;
    if i == 0 { SpelledAt(0, 0, 0, "REINDEX"); } else if i == 1 { SpelledAt(1, 0, 2, "INDEXED"); }
    else if i == 2 { SpelledAt(2, 0, 2, "INDEX"); } else if i == 3 { SpelledAt(3, 0, 8, "DESC"); }
    else if i == 4 { SpelledAt(4, 0, 9, "ESCAPE"); } else { SpelledAt(5, 0, 14, "EACH"); }
  }

  lemma Spelled1(i: nat)
    requires 6 <= i < 12
    ensures Spelled(i)
  {
    hide Spelled;
    if i == 6 { SpelledAt(6, 0, 16, "CHECK"); } else if i == 7 { SpelledAt(7, 1, 2, "KEY"); }
    else if i == 8 { SpelledAt(8, 1, 5, "BEFORE"); } else if i == 9 { SpelledAt(9, 1, 7, "FOREIGN"); }
    else if i == 10 { SpelledAt(10, 1, 7, "FOR"); } else { SpelledAt(11, 1, 11, "IGNORE"); }
  }

  lemma Spelled2(i: nat)
    requires 12 <= i < 18
    ensures Spelled(i)
  {
    hide Spelled;
    if i == 12 { SpelledAt(12, 1, 15, "REGEXP"); } else if i == 13 { SpelledAt(13, 2, 0, "EXPLAIN"); }
    else if i == 14 { SpelledAt(14, 2, 5, "INSTEAD"); } else if i == 15 { SpelledAt(15, 2, 10, "ADD"); }
    else if i == 16 { SpelledAt(16, 2, 12, "DATABASE"); } else { SpelledAt(17, 2, 17, "AS"); }
  }

  lemma Spelled3(i: nat)
    requires 18 <= i < 24
    ensures Spelled(i)
  {
    hide Spelled;
    if i == 18 { SpelledAt(18, 3, 0, "SELECT"); } else if i == 19 { SpelledAt(19, 3, 5, "TABLE"); }
    else if i == 20 { SpelledAt(20, 3, 8, "LEFT"); } else if i == 21 { SpelledAt(21, 3, 11, "THEN"); }
    else if i == 22 { SpelledAt(22, 3, 13, "END"); } else { SpelledAt(23, 3, 15, "DEFERRABLE"); }
  }

  lemma Spelled4(i: nat)
    requires 24 <= i < 30
    ensures Spelled(i)
  {
    hide Spelled;
    if i == 24 { SpelledAt(24, 4, 6, "ELSE"); } else if i == 25 { SpelledAt(25, 4, 9, "EXCEPT"); }
    else if i == 26 { SpelledAt(26, 4, 14, "TRANSACTION"); } else if i == 27 { SpelledAt(27, 5, 1, "ACTION"); }
    else if i == 28 { SpelledAt(28, 5, 5, "ON"); } else { SpelledAt(29, 5, 6, "NATURAL"); }
  }

  lemma Spelled5(i: nat)
    requires 30 <= i < 36
    ensures Spelled(i)
  {
    hide Spelled;
    if i == 30 { SpelledAt(30, 5, 11, "ALTER"); } else if i == 31 { SpelledAt(31, 5, 15, "RAISE"); }
    else if i == 32 { SpelledAt(32, 6, 1, "EXCLUSIVE"); } else if i == 33 { SpelledAt(33, 6, 9, "EXISTS"); }
    else if i == 34 { SpelledAt(34, 6, 14, "SAVEPOINT"); } else { SpelledAt(35, 7, 2, "INTERSECT"); }
  }

  lemma Spelled6(i: nat)
    requires 36 <= i < 42
    ensures Spelled(i)
  {
    hide Spelled;
    if i == 36 { SpelledAt(36, 7, 10, "TRIGGER"); } else if i == 37 { SpelledAt(37, 7, 16, "REFERENCES"); }
    else if i == 38 { SpelledAt(38, 8, 8, "CONSTRAINT"); } else if i == 39 { SpelledAt(39, 8, 15, "INTO"); }
    else if i == 40 { SpelledAt(40, 9, 0, "OFFSET"); } else { SpelledAt(41, 9, 0, "OF"); }
  }

  lemma Spelled7(i: nat)
    requires 42 <= i < 48
    ensures Spelled(i)
  {
    hide Spelled;
    if i == 42 { SpelledAt(42, 9, 3, "SET"); } else if i == 43 { SpelledAt(43, 9, 5, "TEMPORARY"); }
    else if i == 44 { SpelledAt(44, 9, 5, "TEMP"); } else if i == 45 { SpelledAt(45, 9, 9, "OR"); }
    else if i == 46 { SpelledAt(46, 9, 14, "UNIQUE"); } else { SpelledAt(47, 9, 17, "QUERY"); }
  }

  lemma Spelled8(i: nat)
    requires 48 <= i < 54
    ensures Spelled(i)
  {
    hide Spelled;
    if i == 48 { SpelledAt(48, 10, 4, "WITHOUT"); } else if i == 49 { SpelledAt(49, 10, 4, "WITH"); }
    else if i == 50 { SpelledAt(50, 10, 8, "OUTER"); } else if i == 51 { SpelledAt(51, 10, 12, "RELEASE"); }
    else if i == 52 { SpelledAt(52, 11, 1, "ATTACH"); } else { SpelledAt(53, 11, 6, "HAVING"); }
  }

  lemma Spelled9(i: nat)
    requires 54 <= i < 60
    ensures Spelled(i)
  {
    hide Spelled;
    if i == 54 { SpelledAt(54, 11, 11, "GROUP"); } else if i == 55 { SpelledAt(55, 11, 14, "UPDATE"); }
    else if i == 56 { SpelledAt(56, 12, 2, "BEGIN"); } else if i == 57 { SpelledAt(57, 12, 5, "INNER"); }
    else if i == 58 { SpelledAt(58, 12, 9, "RECURSIVE"); } else { SpelledAt(59, 13, 0, "BETWEEN"); }
  }

  lemma Spelled10(i: nat)
    requires 60 <= i < 66
    ensures Spelled(i)
  {
    hide Spelled;
    if i == 60 { SpelledAt(60, 13, 6, "NOTNULL"); } else if i == 61 { SpelledAt(61, 13, 6, "NOT"); }
    else if i == 62 { SpelledAt(62, 13, 6, "NO"); } else if i == 63 { SpelledAt(63, 13, 9, "NULL"); }
    else if i == 64 { SpelledAt(64, 13, 12, "LIKE"); } else { SpelledAt(65, 13, 16, "CASCADE"); }
  }

  lemma Spelled11(i: nat)
    requires 66 <= i < 72
    ensures Spelled(i)
  {
    hide Spelled;
    if i == 66 { SpelledAt(66, 13, 17, "ASC"); } else if i == 67 { SpelledAt(67, 14, 3, "DELETE"); }
    else if i == 68 { SpelledAt(68, 14, 9, "CASE"); } else if i == 69 { SpelledAt(69, 14, 13, "COLLATE"); }
    else if i == 70 { SpelledAt(70, 15, 2, "CREATE"); } else { SpelledAt(71, 15, 8, "CURRENT_DATE"); }
  }

  lemma Spelled12(i: nat)
    requires 72 <= i < 78
    ensures Spelled(i)
  {
    hide Spelled;
    if i == 72 { SpelledAt(72, 16, 2, "DETACH"); } else if i == 73 { SpelledAt(73, 16, 8, "IMMEDIATE"); }
    else if i == 74 { SpelledAt(74, 16, 17, "JOIN"); } else if i == 75 { SpelledAt(75, 17, 1, "INSERT"); }
    else if i == 76 { SpelledAt(76, 17, 7, "MATCH"); } else { SpelledAt(77, 17, 12, "PLAN"); }
  }

  lemma Spelled13(i: nat)
    requires 78 <= i < 84
    ensures Spelled(i)
  {
    hide Spelled;
    if i == 78 { SpelledAt(78, 17, 14, "ANALYZE"); } else if i == 79 { SpelledAt(79, 18, 3, "PRAGMA"); }
    else if i == 80 { SpelledAt(80, 18, 8, "ABORT"); } else if i == 81 { SpelledAt(81, 18, 13, "VALUES"); }
    else if i == 82 { SpelledAt(82, 19, 1, "VIRTUAL"); } else { SpelledAt(83, 19, 7, "LIMIT"); }
  }

  lemma Spelled14(i: nat)
    requires 84 <= i < 90
    ensures Spelled(i)
  {
    hide Spelled;
    if i == 84 { SpelledAt(84, 19, 12, "WHEN"); } else if i == 85 { SpelledAt(85, 19, 16, "WHERE"); }
    else if i == 86 { SpelledAt(86, 20, 1, "RENAME"); } else if i == 87 { SpelledAt(87, 20, 7, "AFTER"); }
    else if i == 88 { SpelledAt(88, 20, 11, "REPLACE"); } else { SpelledAt(89, 21, 0, "AND"); }
  }

  lemma Spelled15(i: nat)
    requires 90 <= i < 96
    ensures Spelled(i)
  {
    hide Spelled;
    if i == 90 { SpelledAt(90, 21, 2, "DEFAULT"); } else if i == 91 { SpelledAt(91, 21, 9, "AUTOINCREMENT"); }
    else if i == 92 { SpelledAt(92, 21, 11, "TO"); } else if i == 93 { SpelledAt(93, 21, 13, "IN"); }
    else if i == 94 { SpelledAt(94, 22, 4, "CAST"); } else { SpelledAt(95, 22, 8, "COLUMN"); }
  }

  lemma Spelled16(i: nat)
    requires 96 <= i < 102
    ensures Spelled(i)
  {
    hide Spelled;
    if i == 96 { SpelledAt(96, 22, 14, "COMMIT"); } else if i == 97 { SpelledAt(97, 23, 2, "CONFLICT"); }
    else if i == 98 { SpelledAt(98, 23, 10, "CROSS"); }
    else if i == 99 { SpelledAt(99, 23, 15, "CURRENT_TIMESTAMP"); }
    else if i == 100 { SpelledAt(100, 23, 15, "CURRENT_TIME"); } else { SpelledAt(101, 24, 13, "PRIMARY"); }
  }

  lemma Spelled17(i: nat)
    requires 102 <= i < 108
    ensures Spelled(i)
  {
    hide Spelled;
    if i == 102 { SpelledAt(102, 25, 2, "DEFERRED"); } else if i == 103 { SpelledAt(103, 25, 9, "DISTINCT"); }
    else if i == 104 { SpelledAt(104, 25, 10, "IS"); } else if i == 105 { SpelledAt(105, 25, 17, "DROP"); }
    else if i == 106 { SpelledAt(106, 26, 3, "FAIL"); } else { SpelledAt(107, 26, 7, "FROM"); }
  }

  lemma Spelled18(i: nat)
    requires 108 <= i < 114
    ensures Spelled(i)
  {
    hide Spelled;
    if i == 108 { SpelledAt(108, 26, 11, "FULL"); } else if i == 109 { SpelledAt(109, 26, 15, "GLOB"); }
    else if i == 110 { SpelledAt(110, 27, 0, "BY"); } else if i == 111 { SpelledAt(111, 27, 2, "IF"); }
    else if i == 112 { SpelledAt(112, 27, 4, "ISNULL"); } else { SpelledAt(113, 27, 10, "ORDER"); }
  }

  lemma Spelled19(i: nat)
    requires 114 <= i < 120
    ensures Spelled(i)
  {
    hide Spelled;
    if i == 114 { SpelledAt(114, 27, 14, "RESTRICT"); } else if i == 115 { SpelledAt(115, 28, 4, "RIGHT"); }
    else if i == 116 { SpelledAt(116, 28, 9, "ROLLBACK"); } else if i == 117 { SpelledAt(117, 28, 17, "ROW"); }
    else if i == 118 { SpelledAt(118, 29, 2, "UNION"); } else { SpelledAt(119, 29, 7, "USING"); }
  }

  lemma Spelled20(i: nat)
    requires 120 <= i < 124
    ensures Spelled(i)
  {
    hide Spelled;
    if i == 120 { SpelledAt(120, 29, 12, "VACUUM"); } else if i == 121 { SpelledAt(121, 30, 0, "VIEW"); }
    else if i == 122 { SpelledAt(122, 30, 4, "INITIALLY"); } else { SpelledAt(123, 30, 9, "ALL"); }
  }

  lemma AllSpelled(i: nat)
    requires i < N_KEYWORDS
    ensures Spelled(i)
  {
    if i < 6 { Spelled0(i); } else if i < 12 { Spelled1(i); } else if i < 18 { Spelled2(i); }
    else if i < 24 { Spelled3(i); } else if i < 30 { Spelled4(i); } else if i < 36 { Spelled5(i); }
    else if i < 42 { Spelled6(i); } else if i < 48 { Spelled7(i); } else if i < 54 { Spelled8(i); }
    else if i < 60 { Spelled9(i); } else if i < 66 { Spelled10(i); } else if i < 72 { Spelled11(i); }
    else if i < 78 { Spelled12(i); } else if i < 84 { Spelled13(i); } else if i < 90 { Spelled14(i); }
    else if i < 96 { Spelled15(i); } else if i < 102 { Spelled16(i); } else if i < 108 { Spelled17(i); }
    else if i < 114 { Spelled18(i); } else if i < 120 { Spelled19(i); } else { Spelled20(i); }
  }

  lemma Xors0()
    ensures Xor(456, 360, 7) == 167 && Xor(420, 300, 7) == 143 && Xor(420, 360, 5) == 201
    ensures Xor(400, 297, 4) == 189 && Xor(404, 303, 6) == 189 && Xor(404, 312, 4) == 168
    ensures Xor(396, 321, 5) == 200 && Xor(428, 363, 3) == 196 && Xor(392, 303, 6) == 161
    ensures Xor(408, 330, 7) == 213 && Xor(408, 342, 3) == 205 && Xor(420, 303, 6) == 141
    ensures Xor(456, 336, 6) == 158
  {
  }

  lemma Xors1()
    ensures Xor(404, 330, 7) == 217 && Xor(420, 300, 7) == 143 && Xor(388, 300, 3) == 171
    ensures Xor(400, 303, 8) == 183 && Xor(388, 345, 2) == 223 && Xor(460, 348, 6) == 150
    ensures Xor(464, 303, 5) == 250 && Xor(432, 348, 4) == 232 && Xor(464, 330, 4) == 158
    ensures Xor(404, 300, 3) == 187 && Xor(400, 303, 10) == 181 && Xor(404, 303, 4) == 191
    ensures Xor(404, 348, 6) == 206
  {
  }

  lemma Xors2()
    ensures Xor(464, 330, 11) == 145 && Xor(388, 330, 6) == 200 && Xor(444, 330, 2) == 244
    ensures Xor(440, 324, 7) == 251 && Xor(388, 342, 5) == 215 && Xor(456, 303, 5) == 226
    ensures Xor(404, 303, 9) == 178 && Xor(404, 345, 6) == 203 && Xor(460, 348, 9) == 153
    ensures Xor(420, 348, 9) == 241 && Xor(464, 342, 7) == 129 && Xor(456, 345, 10) == 155
    ensures Xor(396, 348, 10) == 218
  {
  }

  lemma Xors3()
    ensures Xor(420, 333, 4) == 237 && Xor(444, 348, 6) == 230 && Xor(444, 306, 2) == 140
    ensures Xor(460, 348, 3) == 147 && Xor(464, 363, 9) == 178 && Xor(464, 336, 4) == 132
    ensures Xor(444, 342, 2) == 232 && Xor(468, 303, 6) == 253 && Xor(452, 363, 5) == 170
    ensures Xor(476, 348, 7) == 135 && Xor(476, 312, 4) == 224 && Xor(444, 342, 5) == 239
    ensures Xor(456, 303, 7) == 224
  {
  }

  lemma Xors4()
    ensures Xor(388, 312, 6) == 186 && Xor(416, 309, 6) == 147 && Xor(412, 336, 5) == 201
    ensures Xor(468, 303, 6) == 253 && Xor(392, 330, 5) == 199 && Xor(420, 342, 5) == 247
    ensures Xor(456, 303, 9) == 238 && Xor(392, 330, 7) == 197 && Xor(440, 324, 7) == 251
    ensures Xor(440, 348, 3) == 231 && Xor(440, 333, 2) == 247 && Xor(440, 324, 4) == 248
    ensures Xor(432, 303, 4) == 155
  {
  }

  lemma Xors5()
    ensures Xor(396, 303, 7) == 164 && Xor(388, 297, 3) == 174 && Xor(400, 303, 6) == 185
    ensures Xor(396, 303, 4) == 167 && Xor(396, 303, 7) == 164 && Xor(396, 303, 6) == 165
    ensures Xor(396, 303, 12) == 175 && Xor(400, 312, 6) == 174 && Xor(420, 303, 9) == 130
    ensures Xor(424, 330, 4) == 230 && Xor(420, 348, 6) == 254 && Xor(436, 312, 5) == 137
    ensures Xor(448, 330, 4) == 142
  {
  }

  lemma Xors6()
    ensures Xor(388, 303, 7) == 172 && Xor(448, 291, 6) == 229 && Xor(388, 348, 5) == 221
    ensures Xor(472, 345, 6) == 135 && Xor(472, 324, 7) == 155 && Xor(432, 348, 5) == 233
    ensures Xor(476, 330, 4) == 146 && Xor(476, 303, 5) == 246 && Xor(456, 303, 6) == 225
    ensures Xor(388, 342, 5) == 215 && Xor(456, 303, 7) == 224 && Xor(388, 300, 3) == 171
    ensures Xor(400, 348, 7) == 203
  {
  }

  lemma Xors7()
    ensures Xor(388, 348, 13) == 213 && Xor(464, 333, 2) == 159 && Xor(420, 330, 2) == 236
    ensures Xor(396, 348, 4) == 212 && Xor(396, 330, 6) == 192 && Xor(396, 348, 6) == 214
    ensures Xor(396, 348, 8) == 216 && Xor(396, 345, 5) == 208 && Xor(396, 336, 17) == 205
    ensures Xor(396, 303, 12) == 175 && Xor(448, 363, 7) == 172 && Xor(400, 300, 8) == 180
    ensures Xor(400, 348, 8) == 196
  {
  }

  lemma Xors8()
    ensures Xor(420, 345, 2) == 255 && Xor(400, 336, 4) == 196 && Xor(408, 324, 4) == 216
    ensures Xor(408, 327, 4) == 219 && Xor(408, 324, 4) == 216 && Xor(412, 294, 4) == 190
    ensures Xor(392, 363, 2) == 225 && Xor(420, 306, 2) == 148 && Xor(420, 324, 6) == 230
    ensures Xor(444, 342, 5) == 239 && Xor(456, 348, 8) == 156 && Xor(456, 348, 5) == 145
    ensures Xor(456, 321, 8) == 129
  {
  }

  lemma Xors9()
    ensures Xor(456, 357, 3) == 174 && Xor(468, 330, 5) == 155 && Xor(468, 309, 5) == 228
    ensures Xor(472, 327, 6) == 153 && Xor(472, 357, 4) == 185 && Xor(420, 363, 9) == 198
    ensures Xor(388, 324, 3) == 195
  {
  }

  lemma Homed0(i: nat)
    requires 0 <= i < 13
    ensures Homed(i)
  {
    Xors0(); hide Xor;
  }

  lemma Homed1(i: nat)
    requires 13 <= i < 26
    ensures Homed(i)
  {
    Xors1(); hide Xor;
  }

  lemma Homed2(i: nat)
    requires 26 <= i < 39
    ensures Homed(i)
  {
    Xors2(); hide Xor;
  }

  lemma Homed3(i: nat)
    requires 39 <= i < 52
    ensures Homed(i)
  {
    Xors3(); hide Xor;
  }

  lemma Homed4(i: nat)
    requires 52 <= i < 65
    ensures Homed(i)
  {
    Xors4(); hide Xor;
  }

  lemma Homed5(i: nat)
    requires 65 <= i < 78
    ensures Homed(i)
  {
    Xors5(); hide Xor;
  }

  lemma Homed6(i: nat)
    requires 78 <= i < 91
    ensures Homed(i)
  {
    Xors6(); hide Xor;
  }

  lemma Homed7(i: nat)
    requires 91 <= i < 104
    ensures Homed(i)
  {
    Xors7(); hide Xor;
  }

  lemma Homed8(i: nat)
    requires 104 <= i < 117
    ensures Homed(i)
  {
    Xors8(); hide Xor;
  }

  lemma Homed9(i: nat)
    requires 117 <= i < 124
    ensures Homed(i)
  {
    Xors9(); hide Xor;
  }

  lemma AllHomed(i: nat)
    requires i < N_KEYWORDS
    ensures Homed(i)
  {
    if i < 13 { Homed0(i); } else if i < 26 { Homed1(i); } else if i < 39 { Homed2(i); }
    else if i < 52 { Homed3(i); } else if i < 65 { Homed4(i); } else if i < 78 { Homed5(i); }
    else if i < 91 { Homed6(i); } else if i < 104 { Homed7(i); } else if i < 117 { Homed8(i); }
    else { Homed9(i); }
  }

  lemma TextIsLetters(k: nat)
    requires k < N_TEXT
    ensures KeywordChar(TextAt(k))
  {
    TextShape();
    if k < 144 { Letters0(k / 18, k % 18); }
    else if k < 288 { Letters1(k / 18, k % 18); }
    else if k < 432 { Letters2(k / 18, k % 18); }
    else { Letters3(k / 18, k % 18); }
  }

  lemma Under0(r: nat, c: nat)
    requires 0 <= r < 8 && r < |Z_TEXT| && c < |Z_TEXT[r]|
    ensures Z_TEXT[r][c] == '_' <==> false
  {
  }

  lemma Under1(r: nat, c: nat)
    requires 8 <= r < 16 && r < |Z_TEXT| && c < |Z_TEXT[r]|
    ensures Z_TEXT[r][c] == '_' <==> r == 15 && c == 15
  {
  }

  lemma Under2(r: nat, c: nat)
    requires 16 <= r < 24 && r < |Z_TEXT| && c < |Z_TEXT[r]|
    ensures Z_TEXT[r][c] == '_' <==> false
  {
  }

  lemma Under3(r: nat, c: nat)
    requires 24 <= r < 31 && r < |Z_TEXT| && c < |Z_TEXT[r]|
    ensures Z_TEXT[r][c] == '_' <==> r == 24 && c == 4
  {
  }

  lemma NoUnderscore(r: nat, c: nat)
    requires r < 31 && r < |Z_TEXT| && c < |Z_TEXT[r]|
    ensures Z_TEXT[r][c] == '_' <==> (r == 15 && c == 15) || (r == 24 && c == 4)
  {
    if r < 8 { Under0(r, c); } else if r < 16 { Under1(r, c); } else if r < 24 { Under2(r, c); } else { Under3(r, c); }
  }

  /** The underscores of the text. */
  lemma TextUnderscores(k: nat)
    requires k < N_TEXT
    ensures TextAt(k) == '_' <==> k == 285 || k == 436
  {
    TextShape();
    NoUnderscore(k / 18, k % 18);
  }

  predicate Covers(i: nat, k: nat)
    requires i < N_KEYWORDS
  {
    OffsetAt(i) <= k < OffsetAt(i) + LenAt(i)
  }

  lemma Coverings0(i: nat)
    requires 0 <= i < 39
    ensures Covers(i, 285) <==> i == 71
    ensures Covers(i, 436) <==> i == 99 || i == 100
  {
  }

  lemma Coverings1(i: nat)
    requires 39 <= i < 78
    ensures Covers(i, 285) <==> i == 71
    ensures Covers(i, 436) <==> i == 99 || i == 100
  {
  }

  lemma Coverings2(i: nat)
    requires 78 <= i < 124
    ensures Covers(i, 285) <==> i == 71
    ensures Covers(i, 436) <==> i == 99 || i == 100
  {
  }

  /** The keywords whose slices cover the two underscores, which they have at index 7. */
  lemma Coverings(i: nat)
    requires i < N_KEYWORDS
    ensures Covers(i, 285) <==> i == 71
    ensures Covers(i, 436) <==> i == 99 || i == 100
    ensures OffsetAt(71) == 278 && OffsetAt(99) == 429 && OffsetAt(100) == 429
  {
    if i < 39 { Coverings0(i); } else if i < 78 { Coverings1(i); } else { Coverings2(i); }
  }

  /** The only underscores in keywords are at index 7 of CURRENT_DATE, CURRENT_TIMESTAMP and
      CURRENT_TIME. */
  lemma Underscores(i: nat, j: nat)
    requires i < N_KEYWORDS && j < |Keyword(i)|
    ensures Keyword(i)[j] == '_' <==> (i == 71 || i == 99 || i == 100) && j == 7
  {
    hide Keyword, OffsetAt, LenAt, TextAt;
    AllSpelled(i);
    Coverings(i);
    TextUnderscores(OffsetAt(i) + j);
  }

  lemma Letters0(r: nat, c: nat)
    requires 0 <= r < 8 && r < |Z_TEXT| && c < |Z_TEXT[r]|
    ensures KeywordChar(Z_TEXT[r][c])
  {
  }

  lemma Letters1(r: nat, c: nat)
    requires 8 <= r < 16 && r < |Z_TEXT| && c < |Z_TEXT[r]|
    ensures KeywordChar(Z_TEXT[r][c])
  {
  }

  lemma Letters2(r: nat, c: nat)
    requires 16 <= r < 24 && r < |Z_TEXT| && c < |Z_TEXT[r]|
    ensures KeywordChar(Z_TEXT[r][c])
  {
  }

  lemma Letters3(r: nat, c: nat)
    requires 24 <= r < 31 && r < |Z_TEXT| && c < |Z_TEXT[r]|
    ensures KeywordChar(Z_TEXT[r][c])
  {
  }

  /** Keywords of one length that share a chain. */
  lemma Differ()
    ensures Keyword(14) != Keyword(1)
    ensures Keyword(54) != Keyword(2)
    ensures Keyword(89) != Keyword(15)
    ensures Keyword(60) != Keyword(29)
    ensures Keyword(87) != Keyword(30)
    ensures Keyword(43) != Keyword(32)
    ensures Keyword(112) != Keyword(40)
    ensures Keyword(55) != Keyword(46)
    ensures Keyword(113) != Keyword(50)
    ensures Keyword(88) != Keyword(51)
    ensures Keyword(69) != Keyword(65)
    ensures Keyword(117) != Keyword(66)
    ensures Keyword(100) != Keyword(71)
    ensures Keyword(101) != Keyword(78)
    ensures Keyword(108) != Keyword(106)
  {
    assert Keyword(14)[2] != Keyword(1)[2];
    assert Keyword(54)[0] != Keyword(2)[0];
    assert Keyword(89)[1] != Keyword(15)[1];
    assert Keyword(60)[1] != Keyword(29)[1];
    assert Keyword(87)[1] != Keyword(30)[1];
    assert Keyword(43)[0] != Keyword(32)[0];
    assert Keyword(112)[0] != Keyword(40)[0];
    assert Keyword(55)[1] != Keyword(46)[1];
    assert Keyword(113)[1] != Keyword(50)[1];
    assert Keyword(88)[2] != Keyword(51)[2];
    assert Keyword(69)[1] != Keyword(65)[1];
    assert Keyword(117)[0] != Keyword(66)[0];
    assert Keyword(100)[8] != Keyword(71)[8];
    assert Keyword(101)[0] != Keyword(78)[0];
    assert Keyword(108)[1] != Keyword(106)[1];
  }

  /** A bucket whose chain leads to keyword `i` makes it reachable. */
  lemma FromBucket(i: nat, h: nat, link: nat)
    requires i < N_KEYWORDS && HomeAt(i) == h < N_BUCKETS && HashAt(h) == link <= N_KEYWORDS
    requires link == i + 1 || Reaches(link, i)
    ensures Reachable(i)
  {
  }

  /** The chain passes over a different keyword. */
  lemma Pass(link: nat, next: nat, i: nat)
    requires 0 < link <= N_KEYWORDS && i < N_KEYWORDS && NextAt(link - 1) == next < link
    requires LenAt(link - 1) != LenAt(i) || Keyword(link - 1) != Keyword(i)
    requires next == i + 1 || Reaches(next, i)
    ensures Reaches(link, i)
  {
    hide NextAt, LenAt, Keyword;
  }

  lemma Reachable0(i: nat)
    requires 0 <= i < 16
    ensures Reachable(i)
  {
    Differ();
    hide Reachable, Reaches, Keyword;
    if i == 0 { Pass(69, 1, 0); FromBucket(0, 40, 69); }
    else if i == 1 { Pass(15, 2, 1); FromBucket(1, 16, 15); }
    else if i == 2 { Pass(55, 3, 2); FromBucket(2, 74, 55); }
    else if i == 3 { Pass(5, 4, 3); FromBucket(3, 62, 5); } else if i == 4 { FromBucket(4, 62, 5); }
    else if i == 5 { FromBucket(5, 41, 6); } else if i == 6 { Pass(28, 7, 6); FromBucket(6, 73, 28); }
    else if i == 7 { Pass(104, 8, 7); Pass(106, 104, 7); FromBucket(7, 69, 106); }
    else if i == 8 { FromBucket(8, 34, 9); } else if i == 9 { Pass(92, 10, 9); FromBucket(9, 86, 92); }
    else if i == 10 { Pass(100, 11, 10); FromBucket(10, 78, 100); } else if i == 11 { FromBucket(11, 14, 12); }
    else if i == 12 { Pass(22, 13, 12); FromBucket(12, 31, 22); } else if i == 13 { FromBucket(13, 90, 14); }
    else if i == 14 { FromBucket(14, 16, 15); } else { Pass(90, 16, 15); FromBucket(15, 44, 90); }
  }

  lemma Reachable1(i: nat)
    requires 16 <= i < 32
    ensures Reachable(i)
  {
    Differ();
    hide Reachable, Reaches, Keyword;
    if i == 16 { FromBucket(16, 56, 17); } else if i == 17 { FromBucket(17, 96, 18); }
    else if i == 18 { FromBucket(18, 23, 19); } else if i == 19 { FromBucket(19, 123, 20); }
    else if i == 20 { Pass(46, 21, 20); FromBucket(20, 105, 46); } else if i == 21 { FromBucket(21, 31, 22); }
    else if i == 22 { FromBucket(22, 60, 23); } else if i == 23 { FromBucket(23, 54, 24); }
    else if i == 24 { FromBucket(24, 64, 25); } else if i == 25 { FromBucket(25, 79, 26); }
    else if i == 26 { Pass(116, 27, 26); FromBucket(26, 18, 116); } else if i == 27 { FromBucket(27, 73, 28); }
    else if i == 28 { FromBucket(28, 117, 29); } else if i == 29 { Pass(61, 30, 29); FromBucket(29, 124, 61); }
    else if i == 30 { Pass(88, 31, 30); FromBucket(30, 88, 88); } else { FromBucket(31, 99, 32); }
  }

  lemma Reachable2(i: nat)
    requires 32 <= i < 48
    ensures Reachable(i)
  {
    Differ();
    hide Reachable, Reaches, Keyword;
    if i == 32 { Pass(44, 33, 32); FromBucket(32, 51, 44); }
    else if i == 33 { Pass(91, 34, 33); FromBucket(33, 76, 91); }
    else if i == 34 { Pass(121, 35, 34); FromBucket(34, 26, 121); } else if i == 35 { FromBucket(35, 114, 36); }
    else if i == 36 { Pass(117, 37, 36); FromBucket(36, 2, 117); }
    else if i == 37 { Pass(65, 38, 37); Pass(83, 65, 37); Pass(119, 83, 37); FromBucket(37, 28, 119); }
    else if i == 38 { FromBucket(38, 91, 39); } else if i == 39 { FromBucket(39, 110, 40); }
    else if i == 40 { Pass(75, 41, 40); Pass(113, 75, 40); FromBucket(40, 103, 113); }
    else if i == 41 { FromBucket(41, 13, 42); } else if i == 42 { Pass(54, 43, 42); FromBucket(42, 20, 54); }
    else if i == 43 { FromBucket(43, 51, 44); } else if i == 44 { FromBucket(44, 5, 45); }
    else if i == 45 { FromBucket(45, 105, 46); } else if i == 46 { Pass(56, 47, 46); FromBucket(46, 126, 56); }
    else { FromBucket(47, 43, 48); }
  }

  lemma Reachable3(i: nat)
    requires 48 <= i < 64
    ensures Reachable(i)
  {
    Differ();
    hide Reachable, Reaches, Keyword;
    if i == 48 { Pass(82, 49, 48); FromBucket(48, 8, 82); }
    else if i == 49 { Pass(52, 50, 49); Pass(89, 52, 49); FromBucket(49, 97, 89); }
    else if i == 50 { Pass(114, 51, 50); FromBucket(50, 112, 114); }
    else if i == 51 { Pass(89, 52, 51); FromBucket(51, 97, 89); } else if i == 52 { FromBucket(52, 59, 53); }
    else if i == 53 { FromBucket(53, 20, 54); } else if i == 54 { FromBucket(54, 74, 55); }
    else if i == 55 { FromBucket(55, 126, 56); } else if i == 56 { FromBucket(56, 72, 57); }
    else if i == 57 { Pass(63, 58, 57); FromBucket(57, 120, 63); } else if i == 58 { FromBucket(58, 111, 59); }
    else if i == 59 { FromBucket(59, 70, 60); } else if i == 60 { FromBucket(60, 124, 61); }
    else if i == 61 { FromBucket(61, 104, 62); } else if i == 62 { FromBucket(62, 120, 63); }
    else { FromBucket(63, 121, 64); }
  }

  lemma Reachable4(i: nat)
    requires 64 <= i < 80
    ensures Reachable(i)
  {
    Differ();
    hide Reachable, Reaches, Keyword;
    if i == 64 { Pass(83, 65, 64); Pass(119, 83, 64); FromBucket(64, 28, 119); }
    else if i == 65 { Pass(70, 66, 65); FromBucket(65, 37, 70); }
    else if i == 66 { Pass(73, 67, 66); Pass(118, 73, 66); FromBucket(66, 47, 118); }
    else if i == 67 { Pass(122, 68, 67); FromBucket(67, 58, 122); } else if i == 68 { FromBucket(68, 40, 69); }
    else if i == 69 { FromBucket(69, 37, 70); } else if i == 70 { FromBucket(70, 38, 71); }
    else if i == 71 { Pass(101, 72, 71); FromBucket(71, 48, 101); }
    else if i == 72 { Pass(118, 73, 72); FromBucket(72, 47, 118); } else if i == 73 { FromBucket(73, 3, 74); }
    else if i == 74 { Pass(113, 75, 74); FromBucket(74, 103, 113); } else if i == 75 { FromBucket(75, 0, 76); }
    else if i == 76 { FromBucket(76, 10, 77); } else if i == 77 { FromBucket(77, 15, 78); }
    else if i == 78 { Pass(102, 79, 78); FromBucket(78, 45, 102); } else { FromBucket(79, 102, 80); }
  }

  lemma Reachable5(i: nat)
    requires 80 <= i < 96
    ensures Reachable(i)
  {
    hide Reachable, Reaches, Keyword;
    if i == 80 { FromBucket(80, 94, 81); } else if i == 81 { FromBucket(81, 8, 82); }
    else if i == 82 { Pass(119, 83, 82); FromBucket(82, 28, 119); } else if i == 83 { FromBucket(83, 106, 84); }
    else if i == 84 { FromBucket(84, 19, 85); } else if i == 85 { FromBucket(85, 119, 86); }
    else if i == 86 { Pass(111, 87, 86); FromBucket(86, 98, 111); } else if i == 87 { FromBucket(87, 88, 88); }
    else if i == 88 { FromBucket(88, 97, 89); } else if i == 89 { FromBucket(89, 44, 90); }
    else if i == 90 { FromBucket(90, 76, 91); } else if i == 91 { FromBucket(91, 86, 92); }
    else if i == 92 { FromBucket(92, 32, 93); } else if i == 93 { FromBucket(93, 109, 94); }
    else if i == 94 { FromBucket(94, 85, 95); } else { FromBucket(95, 65, 96); }
  }

  lemma Reachable6(i: nat)
    requires 96 <= i < 112
    ensures Reachable(i)
  {
    Differ();
    hide Reachable, Reaches, Keyword;
    if i == 96 { FromBucket(96, 87, 97); }
    else if i == 97 { Pass(107, 98, 97); Pass(109, 107, 97); FromBucket(97, 89, 109); }
    else if i == 98 { FromBucket(98, 81, 99); } else if i == 99 { FromBucket(99, 78, 100); }
    else if i == 100 { FromBucket(100, 48, 101); } else if i == 101 { FromBucket(101, 45, 102); }
    else if i == 102 { FromBucket(102, 53, 103); }
    else if i == 103 { Pass(106, 104, 103); FromBucket(103, 69, 106); }
    else if i == 104 { FromBucket(104, 1, 105); } else if i == 105 { FromBucket(105, 69, 106); }
    else if i == 106 { Pass(109, 107, 106); FromBucket(106, 89, 109); }
    else if i == 107 { FromBucket(107, 92, 108); } else if i == 108 { FromBucket(108, 89, 109); }
    else if i == 109 { FromBucket(109, 63, 110); } else if i == 110 { FromBucket(110, 98, 111); }
    else { FromBucket(111, 21, 112); }
  }

  lemma Reachable7(i: nat)
    requires 112 <= i < 124
    ensures Reachable(i)
  {
    hide Reachable, Reaches, Keyword;
    if i == 112 { FromBucket(112, 103, 113); } else if i == 113 { FromBucket(113, 112, 114); }
    else if i == 114 { FromBucket(114, 29, 115); } else if i == 115 { FromBucket(115, 18, 116); }
    else if i == 116 { FromBucket(116, 2, 117); } else if i == 117 { FromBucket(117, 47, 118); }
    else if i == 118 { FromBucket(118, 28, 119); } else if i == 119 { FromBucket(119, 101, 120); }
    else if i == 120 { FromBucket(120, 26, 121); } else if i == 121 { FromBucket(121, 58, 122); }
    else if i == 122 { FromBucket(122, 71, 123); } else { FromBucket(123, 68, 124); }
  }

  lemma AllReachable(i: nat)
    requires i < N_KEYWORDS
    ensures Reachable(i)
  {
    if i < 16 { Reachable0(i); } else if i < 32 { Reachable1(i); } else if i < 48 { Reachable2(i); }
    else if i < 64 { Reachable3(i); } else if i < 80 { Reachable4(i); } else if i < 96 { Reachable5(i); }
    else if i < 112 { Reachable6(i); } else { Reachable7(i); }
  }
}
