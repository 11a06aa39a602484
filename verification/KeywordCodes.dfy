/** Which token each keyword stands for. */
module KeywordCodes {
  import opened KeywordTables
  import opened Tokens

  /** A keyword stands for the token of its own name, except for the groups that share a token and
      for two tokens with other names. */
  predicate Stands(token: string, keyword: string) {
    || token == keyword
    || (token == "JOIN_KW" && keyword in {"CROSS", "FULL", "INNER", "LEFT", "NATURAL", "OUTER", "RIGHT"})
    || (token == "LIKE_KW" && keyword in {"GLOB", "LIKE", "REGEXP"})
    || (token == "CTIME_KW" && keyword in {"CURRENT_DATE", "CURRENT_TIME", "CURRENT_TIMESTAMP"})
    || (token == "TEMP" && keyword == "TEMPORARY")
    || (token == "AUTOINCR" && keyword == "AUTOINCREMENT")
    || (token == "COLUMNKW" && keyword == "COLUMN")
  }

  ghost predicate Named(i: nat)
    requires i < N_KEYWORDS
  {
    CodeAt(i) < N_TOKENS && Stands(TokenAt(CodeAt(i)), Keyword(i))
  }

  lemma Named0(i: nat)
    requires 0 <= i < 10
    ensures Named(i)
  {
  }

  lemma Named1(i: nat)
    requires 10 <= i < 20
    ensures Named(i)
  {
  }

  lemma Named2(i: nat)
    requires 20 <= i < 30
    ensures Named(i)
  {
  }

  lemma Named3(i: nat)
    requires 30 <= i < 40
    ensures Named(i)
  {
  }

  lemma Named4(i: nat)
    requires 40 <= i < 50
    ensures Named(i)
  {
  }

  lemma Named5(i: nat)
    requires 50 <= i < 60
    ensures Named(i)
  {
  }

  lemma Named6(i: nat)
    requires 60 <= i < 70
    ensures Named(i)
  {
  }

  lemma Named7(i: nat)
    requires 70 <= i < 80
    ensures Named(i)
  {
  }

  lemma Named8(i: nat)
    requires 80 <= i < 90
    ensures Named(i)
  {
  }

  lemma Named9(i: nat)
    requires 90 <= i < 100
    ensures Named(i)
  {
  }

  lemma Named10(i: nat)
    requires 100 <= i < 110
    ensures Named(i)
  {
  }

  lemma Named11(i: nat)
    requires 110 <= i < 120
    ensures Named(i)
  {
  }

  lemma Named12(i: nat)
    requires 120 <= i < 124
    ensures Named(i)
  {
  }

  /** The code of every keyword is that of the token it stands for. */
  lemma AllNamed(i: nat)
    requires i < N_KEYWORDS
    ensures Named(i)
  {
    hide Named;
    if i < 10 { Named0(i); } else if i < 20 { Named1(i); } else if i < 30 { Named2(i); }
    else if i < 40 { Named3(i); } else if i < 50 { Named4(i); } else if i < 60 { Named5(i); }
    else if i < 70 { Named6(i); } else if i < 80 { Named7(i); } else if i < 90 { Named8(i); }
    else if i < 100 { Named9(i); } else if i < 110 { Named10(i); } else if i < 120 { Named11(i); }
    else { Named12(i); }
  }
}
