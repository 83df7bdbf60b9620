/** The row count of a command tag, such as "UPDATE 3" or "INSERT 0 5". */
module RowTags {
  import opened Numbers

  /** word occurs in s at index i. */
  predicate At(s: string, word: string, i: nat) { i + |word| <= |s| && s[i..i + |word|] == word }

  /** strstr, from index i on; |s| + 1 when the word does not occur. */
  function Find(s: string, word: string, i: nat): (r: nat)
    requires i <= |s| + 1
    ensures i <= r <= |s| + 1 && (r <= |s| ==> At(s, word, r)) && forall k :: i <= k < r ==> !At(s, word, k)
    decreases |s| + 1 - i
  {
    if i > |s| then |s| + 1 else if At(s, word, i) then i else Find(s, word, i + 1)
  }

  /** From i on, the first blank or the end. */
  function Blank(s: string, i: nat): (r: nat)
    requires i <= |s|
    ensures i <= r <= |s| && (r < |s| ==> s[r] == ' ') && forall k :: i <= k < r ==> s[k] != ' '
    decreases |s| - i
  {
    if i == |s| || s[i] == ' ' then i else Blank(s, i + 1)
  }

  /** The command word starting at i is followed by a blank, as in every tag PostgreSQL sends. */
  predicate HasCount(tag: string) {
    forall k :: 0 <= k <= |tag| && (At(tag, "UPDATE", k) || At(tag, "DELETE", k) || At(tag, "INSERT", k)) ==> k + 7 <= |tag|
  }

  /** What extract_ntuples makes of a tag. */
  function Rows(tag: string): int
    requires HasCount(tag)
  {
    var u, d, i := Find(tag, "UPDATE", 0), Find(tag, "DELETE", 0), Find(tag, "INSERT", 0);
    if u <= |tag| then Atoi(tag[u + 7..])
    else if d <= |tag| then Atoi(tag[d + 7..])
    else if i <= |tag| then Atoi(tag[Blank(tag, i + 7)..])
    else 0
  }

  method Strstr(s: string, word: string) returns (i: nat)
    ensures i == Find(s, word, 0)
  {
    i := 0;
    while i <= |s| && !At(s, word, i)
      invariant i <= |s| + 1 && Find(s, word, 0) == Find(s, word, i)
    {
      i := i + 1;
    }
  }

  /** The word stands at k and nowhere before. */
  predicate First(tag: string, word: string, k: nat) {
    At(tag, word, k) && forall j :: 0 <= j < k ==> !At(tag, word, j)
  }

  predicate Lacks(tag: string, word: string) {
    forall k :: 0 <= k <= |tag| ==> !At(tag, word, k)
  }

  predicate NextBlank(tag: string, from: nat, b: nat) {
    from <= b <= |tag| && (b == |tag| || tag[b] == ' ') && forall k :: from <= k < b ==> tag[k] != ' '
  }

  /** UPDATE is looked for before DELETE and DELETE before INSERT. The number stands after the word, or, for
      INSERT, after the next blank. */
  lemma RowsByWord(tag: string, k: nat, b: nat)
    requires HasCount(tag)
    ensures First(tag, "UPDATE", k) ==> k + 7 <= |tag| && Rows(tag) == Atoi(tag[k + 7..])
    ensures Lacks(tag, "UPDATE") && First(tag, "DELETE", k) ==> k + 7 <= |tag| && Rows(tag) == Atoi(tag[k + 7..])
    ensures Lacks(tag, "UPDATE") && Lacks(tag, "DELETE") && First(tag, "INSERT", k) && NextBlank(tag, k + 7, b) ==>
              Rows(tag) == Atoi(tag[b..])
  {
    hide Atoi;
  }

  /** extract_ntuples. */
  method ExtractTuples(tag: string) returns (rows: int)
    requires HasCount(tag)
    ensures rows == Rows(tag)
  {
    var i := Strstr(tag, "UPDATE");
    if i > |tag| { i := Strstr(tag, "DELETE"); }
    if i <= |tag| {
      i := i + 7;
    } else {
      i := Strstr(tag, "INSERT");
      if i > |tag| { return 0; }
      ghost var j := i;
      i := i + 7;
      while i < |tag| && tag[i] != ' '
        invariant j + 7 <= i <= |tag| && Blank(tag, j + 7) == Blank(tag, i)
      {
        i := i + 1;
      }
    }
    rows := Atoi(tag[i..]);
  }

  /** Neither letter can be part of the counts. */
  predicate Counts(s: string) { forall k :: 0 <= k < |s| ==> s[k] == ' ' || IsDigit(s[k]) }

  lemma Starts(tag: string, word: string, k: nat)
    requires At(tag, word, k) && |word| >= 2
    ensures k + 1 < |tag| && tag[k] == word[0] && tag[k + 1] == word[1]
  {
    assert tag[k..k + |word|][0] == tag[k] && tag[k..k + |word|][1] == tag[k + 1];
  }

  /** The command words of a tag: its own at the front, and no other. */
  lemma OneWord(word: string, counts: string)
    requires word in {"UPDATE", "DELETE", "INSERT"} && counts != [] && Counts(counts)
    ensures var tag := word + " " + counts;
            At(tag, word, 0) && HasCount(tag) && tag[7..] == counts &&
            forall w, k: nat :: w in {"UPDATE", "DELETE", "INSERT"} && k <= |tag| && At(tag, w, k) ==> w == word && k == 0
  {
    var tag := word + " " + counts;
    assert tag[0..6] == word;
    assert forall j :: 7 <= j < |tag| ==> tag[j] == counts[j - 7];
    forall w, k: nat | w in {"UPDATE", "DELETE", "INSERT"} && k <= |tag| && At(tag, w, k)
      ensures w == word && k == 0
    {
      Starts(tag, w, k);
    }
  }

  lemma FoundFirst(tag: string, word: string)
    ensures At(tag, word, 0) ==> Find(tag, word, 0) == 0
    ensures (forall k: nat :: k <= |tag| ==> !At(tag, word, k)) ==> Find(tag, word, 0) == |tag| + 1
  {
  }

  /** A tag names the number of rows that was printed into it. */
  lemma TagsRoundTrip(n: nat, oid: nat)
    ensures HasCount("UPDATE" + " " + Decimal(n)) && Rows("UPDATE" + " " + Decimal(n)) == n
    ensures HasCount("DELETE" + " " + Decimal(n)) && Rows("DELETE" + " " + Decimal(n)) == n
    ensures HasCount("INSERT" + " " + (Decimal(oid) + " " + Decimal(n))) &&
            Rows("INSERT" + " " + (Decimal(oid) + " " + Decimal(n))) == n
  {
    DecimalReads(n);
    InsertCount(oid, n);
    hide *;
    DecimalCounts(n, oid);
    OneTag("UPDATE", Decimal(n));
    OneTag("DELETE", Decimal(n));
    OneTag("INSERT", Decimal(oid) + " " + Decimal(n));
  }

  lemma DecimalCounts(n: nat, oid: nat)
    ensures Decimal(n) != [] && Counts(Decimal(n))
    ensures Decimal(oid) + " " + Decimal(n) != [] && Counts(Decimal(oid) + " " + Decimal(n))
  {
    hide Decimal;
  }

  lemma OneTag(word: string, counts: string)
    requires word in {"UPDATE", "DELETE", "INSERT"} && counts != [] && Counts(counts)
    ensures var tag := word + " " + counts;
            HasCount(tag) && Blank(tag, 7) <= |tag| &&
            Rows(tag) == if word == "INSERT" then Atoi(tag[Blank(tag, 7)..]) else Atoi(counts)
  {
    var tag := word + " " + counts;
    assert |tag| >= 7;
    OneWord(word, counts);
    hide *;
    WordFound(tag, word);
  }

  lemma WordFound(tag: string, word: string)
    requires word in {"UPDATE", "DELETE", "INSERT"} && |tag| >= 7 && HasCount(tag) && At(tag, word, 0)
    requires forall w, k: nat :: w in {"UPDATE", "DELETE", "INSERT"} && k <= |tag| && At(tag, w, k) ==> w == word && k == 0
    ensures Blank(tag, 7) <= |tag| && Rows(tag) == if word == "INSERT" then Atoi(tag[Blank(tag, 7)..]) else Atoi(tag[7..])
  {
    hide Find, At, Atoi, Blank, HasCount;
    FoundFirst(tag, "UPDATE");
    FoundFirst(tag, "DELETE");
    FoundFirst(tag, "INSERT");
  }

  lemma InsertCount(oid: nat, n: nat)
    ensures var tag := "INSERT" + " " + (Decimal(oid) + " " + Decimal(n));
            Blank(tag, 7) <= |tag| && tag[Blank(tag, 7)..] == " " + Decimal(n)
  {
    var tag := "INSERT" + " " + (Decimal(oid) + " " + Decimal(n));
    var front, back := Decimal(oid), " " + Decimal(n);
    var b := 7 + |front|;
    hide Decimal;
    assert tag == "INSERT" + " " + front + back;
    assert tag[b] == ' ' && forall k :: 7 <= k < b ==> tag[k] == front[k - 7];
    assert tag[b..] == back;
  }

  /** Any other tag counts no rows. */
  lemma OtherTags(tag: string)
    requires forall w, k: nat :: w in {"UPDATE", "DELETE", "INSERT"} && k <= |tag| ==> !At(tag, w, k)
    ensures HasCount(tag) && Rows(tag) == 0
  {
    FoundFirst(tag, "UPDATE");
    FoundFirst(tag, "DELETE");
    FoundFirst(tag, "INSERT");
  }
}
