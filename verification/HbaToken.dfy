/** The tokenizer of the host-based access file, with its quoting rule and its keywords, and the
    matching of user and database lists that relies on them. */
module HbaToken {
  const MAX_TOKEN: nat := 256

  predicate IsBlank(c: char) { c == ' ' || c == '\t' || c == '\r' }

  predicate IsKeyword(t: string) { t == "all" || t == "sameuser" || t == "samegroup" }

  /** A token and what is left of the file after it. */
  datatype Token = Token(text: string, rest: string)

  // ---------------------------------------------------------------------------------------
  // What next_token returns, as a function of the unread part of the file
  // ---------------------------------------------------------------------------------------

  function SkipBlanks(f: string): (r: string)
    ensures |r| <= |f|
  {
    if f != "" && (IsBlank(f[0]) || f[0] == ',') then SkipBlanks(f[1..]) else f
  }

  /** The rest of the line, its newline included. */
  function SkipLine(f: string): (r: string)
    ensures |r| <= |f| && (r != "" ==> r[0] == '\n')
  {
    if f == "" || f[0] == '\n' then f else SkipLine(f[1..])
  }

  /** Consumes f from within a token of which buf has been collected; room is the size of the buffer
      less the two characters kept for a marker and the end. The result's text is the bare token and
      its flag says whether a quote was seen. */
  function Scan(f: string, buf: string, inQuote: bool, wasQuote: bool, sawQuote: bool, room: nat): (Token, bool)
    decreases |f|
  {
    if f == "" || f[0] == '\n' || (IsBlank(f[0]) && !inQuote) then (Token(buf, f), sawQuote)
    else
      var c := f[0];
      if c == '#' && !inQuote then
        var eol := SkipLine(f[1..]);
        (Token(buf, if eol != "" && buf == "" then eol[1..] else eol), sawQuote)
      else if |buf| >= room then (Token(buf, SkipLine(f[1..])), sawQuote)
      else
        var buf' := if c != '"' || wasQuote then buf + [c] else buf;
        if c == ',' && !inQuote then (Token(buf', f), sawQuote)
        else Scan(f[1..], buf', if c == '"' then !inQuote else inQuote, inQuote && c == '"' && !wasQuote,
                  sawQuote || c == '"', room)
  }

  function NextTokenSpec(f: string, room: nat): Token {
    var g := SkipBlanks(f);
    if g == "" then Token("", "")
    else if g[0] == '\n' then Token("", g[1..])
    else
      var (t, saw) := Scan(g, "", false, false, false, room);
      if !saw && IsKeyword(t.text) then t.(text := t.text + "\n") else t
  }

  /** The collecting loop of next_token, from the first character of a token. */
  method ScanToken(file: string, start: nat, room: nat) returns (buf: string, p: nat, sawQuote: bool)
    requires start <= |file|
    ensures p <= |file| && (Token(buf, file[p..]), sawQuote) == Scan(file[start..], "", false, false, false, room)
  {
    var inQuote, wasQuote := false, false;
    buf, p, sawQuote := "", start, false;
    ghost var whole := Scan(file[start..], "", false, false, false, room);
    assert whole == ScanAt(file, p, buf, inQuote, wasQuote, sawQuote, room);
    hide Scan, SkipLine, ScanAt;
    while p < |file| && file[p] != '\n' && (!IsBlank(file[p]) || inQuote)
      invariant p <= |file|
      invariant ScanAt(file, p, buf, inQuote, wasQuote, sawQuote, room) == whole
    {
      var c := file[p];
      ScanStep(file, p, buf, inQuote, wasQuote, sawQuote, room);
      if c == '#' && !inQuote {
        p := SkipComment(file, p, buf);
        return;
      }
      if |buf| >= room {
        p := SkipLineFrom(file, p + 1);
        return;
      }
      if c != '"' || wasQuote {
        buf := buf + [c];
      }
      if (IsBlank(c) || c == ',') && !inQuote {
        return;
      }
      wasQuote := if inQuote && c == '"' then !wasQuote else false;
      if c == '"' {
        inQuote := !inQuote;
        sawQuote := true;
      }
      p := p + 1;
    }
    ScanEnds(file, p, buf, inQuote, wasQuote, sawQuote, room);
  }

  /** A comment in place of a token takes its newline with it. */
  method SkipComment(file: string, start: nat, buf: string) returns (p: nat)
    requires start < |file|
    ensures p <= |file|
    ensures var eol := SkipLine(file[start + 1..]); file[p..] == if eol != "" && buf == "" then eol[1..] else eol
  {
    p := SkipLineFrom(file, start + 1);
    hide SkipLine;
    if p < |file| && buf == "" {
      assert file[p..][1..] == file[p + 1..];
      p := p + 1;
    }
  }

  function ScanAt(file: string, p: nat, buf: string, inQuote: bool, wasQuote: bool, sawQuote: bool, room: nat): (Token, bool)
    requires p <= |file|
  {
    Scan(file[p..], buf, inQuote, wasQuote, sawQuote, room)
  }

  /** One character of a token. */
  lemma ScanStep(file: string, p: nat, buf: string, inQuote: bool, wasQuote: bool, sawQuote: bool, room: nat)
    requires p < |file| && file[p] != '\n' && (!IsBlank(file[p]) || inQuote)
    ensures var c := file[p];
            var buf' := if c != '"' || wasQuote then buf + [c] else buf;
            ScanAt(file, p, buf, inQuote, wasQuote, sawQuote, room) ==
            if c == '#' && !inQuote then
              var eol := SkipLine(file[p + 1..]);
              (Token(buf, if eol != "" && buf == "" then eol[1..] else eol), sawQuote)
            else if |buf| >= room then (Token(buf, SkipLine(file[p + 1..])), sawQuote)
            else if c == ',' && !inQuote then (Token(buf', file[p..]), sawQuote)
            else ScanAt(file, p + 1, buf', if c == '"' then !inQuote else inQuote, inQuote && c == '"' && !wasQuote,
                        sawQuote || c == '"', room)
  {
    assert file[p..][1..] == file[p + 1..];
  }

  lemma ScanEnds(file: string, p: nat, buf: string, inQuote: bool, wasQuote: bool, sawQuote: bool, room: nat)
    requires p <= |file| && (p == |file| || file[p] == '\n' || (IsBlank(file[p]) && !inQuote))
    ensures ScanAt(file, p, buf, inQuote, wasQuote, sawQuote, room) == (Token(buf, file[p..]), sawQuote)
  {
  }

  /** next_token on a file read from position start: returns the token and the position after it. */
  method NextToken(file: string, start: nat, bufsz: nat) returns (text: string, pos: nat)
    requires start <= |file| && bufsz > 2
    ensures pos <= |file| && Token(text, file[pos..]) == NextTokenSpec(file[start..], bufsz - 2)
  {
    hide Scan, SkipLine;
    var p := start;
    while p < |file| && (IsBlank(file[p]) || file[p] == ',')
      invariant start <= p <= |file| && SkipBlanks(file[p..]) == SkipBlanks(file[start..])
    {
      assert file[p..][1..] == file[p + 1..];
      p := p + 1;
    }
    assert SkipBlanks(file[start..]) == file[p..];
    if p == |file| {
      return "", p;
    }
    if file[p] == '\n' {
      assert file[p..][1..] == file[p + 1..];
      return "", p + 1;
    }
    var sawQuote;
    text, pos, sawQuote := ScanToken(file, p, bufsz - 2);
    if !sawQuote && (text == "all" || text == "sameuser" || text == "samegroup") {
      text := text + "\n";
    }
  }

  method SkipLineFrom(file: string, start: nat) returns (p: nat)
    requires start <= |file|
    ensures start <= p <= |file| && file[p..] == SkipLine(file[start..])
  {
    p := start;
    while p < |file| && file[p] != '\n'
      invariant start <= p <= |file| && SkipLine(file[p..]) == SkipLine(file[start..])
    {
      assert file[p..][1..] == file[p + 1..];
      p := p + 1;
    }
  }

  // ---------------------------------------------------------------------------------------
  // Quoting
  // ---------------------------------------------------------------------------------------

  /** s with every double quote written twice. */
  function Doubled(s: string): string {
    if s == "" then "" else (if s[0] == '"' then "\"\"" else [s[0]]) + Doubled(s[1..])
  }

  function Quoted(s: string): string { "\"" + Doubled(s) + "\"" }

  predicate EndsToken(rest: string) {
    rest == "" || rest[0] == '\n' || IsBlank(rest[0])
  }

  lemma {:induction false} ScanQuoted(s: string, rest: string, buf: string, room: nat)
    requires '\n' !in s && |buf| + |s| < room && EndsToken(rest)
    ensures Scan(Doubled(s) + "\"" + rest, buf, true, false, true, room) == (Token(buf + s, rest), true)
  {
    var f := Doubled(s) + "\"" + rest;
    if s == "" {
      assert f == ['"'] + rest && f[1..] == rest;
      assert Scan(rest, buf, false, true, true, room) == (Token(buf, rest), true);
      assert buf + s == buf;
    } else {
      var tail := Doubled(s[1..]) + "\"" + rest;
      ScanQuoted(s[1..], rest, buf + [s[0]], room);
      assert buf + [s[0]] + s[1..] == buf + s;
      if s[0] == '"' {
        assert f == ['"', '"'] + tail;
        assert f[1..] == ['"'] + tail && f[1..][1..] == tail;
        assert Scan(f[1..], buf, false, true, true, room) == Scan(tail, buf + ['"'], true, false, true, room);
      } else {
        assert f == [s[0]] + tail && f[1..] == tail;
      }
    }
  }

  /** Quoting round trip: a quoted string that fits the buffer comes back exactly, keywords included,
      and the file is left right after the closing quote. */
  lemma QuotedRoundTrip(s: string, rest: string, room: nat)
    requires s != "" && '\n' !in s && |s| < room && EndsToken(rest)
    ensures NextTokenSpec(Quoted(s) + rest, room) == Token(s, rest)
  {
    var f := Quoted(s) + rest;
    var inner := Doubled(s) + "\"" + rest;
    assert f == ['"'] + inner && f[1..] == inner;
    ScanQuoted(s, rest, "", room);
    assert "" + s == s;
    assert Scan(f, "", false, false, false, room) == Scan(inner, "", true, false, true, room);
  }

  lemma {:induction false} ScanLongQuoted(s: string, rest: string, buf: string, room: nat)
    requires '\n' !in s && |buf| <= room <= |buf| + |s|
    ensures Scan(Doubled(s) + "\"" + rest, buf, true, false, true, room) ==
            (Token((buf + s)[..room], SkipLine(rest)), true)
  {
    var f := Doubled(s) + "\"" + rest;
    if |buf| == room {
      assert (buf + s)[..room] == buf;
      SkipQuoted(s, rest);
    } else {
      var tail := Doubled(s[1..]) + "\"" + rest;
      ScanLongQuoted(s[1..], rest, buf + [s[0]], room);
      assert buf + [s[0]] + s[1..] == buf + s;
      if s[0] == '"' {
        assert f == ['"', '"'] + tail;
        assert f[1..] == ['"'] + tail && f[1..][1..] == tail;
        assert Scan(f[1..], buf, false, true, true, room) == Scan(tail, buf + ['"'], true, false, true, room);
      } else {
        assert f == [s[0]] + tail && f[1..] == tail;
      }
    }
  }

  lemma {:induction false} SkipQuoted(s: string, rest: string)
    requires '\n' !in s
    ensures SkipLine((Doubled(s) + "\"" + rest)[1..]) == SkipLine(rest)
  {
    var f := Doubled(s) + "\"" + rest;
    if s == "" {
      assert f[1..] == rest;
    } else {
      var tail := Doubled(s[1..]) + "\"" + rest;
      SkipQuoted(s[1..], rest);
      assert tail[0] != '\n';
      if s[0] == '"' {
        assert f[1..] == ['"'] + tail && f[1..][1..] == tail;
      } else {
        assert f[1..] == tail;
      }
    }
  }

  /** A quoted string that leaves no room for another character is cut to what fits, and the rest of its
      line is skipped. */
  lemma LongQuotedIsCut(s: string, rest: string, room: nat)
    requires '\n' !in s && 0 < room <= |s|
    ensures NextTokenSpec(Quoted(s) + rest, room) == Token(s[..room], SkipLine(rest))
  {
    var f := Quoted(s) + rest;
    var inner := Doubled(s) + "\"" + rest;
    assert f == ['"'] + inner && f[1..] == inner;
    assert Scan(f, "", false, false, false, room) == Scan(inner, "", true, false, true, room);
    ScanLongQuoted(s, rest, "", room);
    assert "" + s == s;
  }

  /** So the round trip holds for the strings that leave room for another character, and for those that
      just fit if nothing is left of the line. */
  lemma QuotedRoundTripIff(s: string, rest: string, room: nat)
    requires s != "" && '\n' !in s && EndsToken(rest) && room > 0
    ensures NextTokenSpec(Quoted(s) + rest, room) == Token(s, rest) <==> |s| < room || (|s| == room && SkipLine(rest) == rest)
  {
    if |s| < room {
      QuotedRoundTrip(s, rest, room);
    } else {
      LongQuotedIsCut(s, rest, room);
      assert |s| == room ==> s[..room] == s;
    }
  }

  predicate IsPlain(s: string) {
    forall i :: 0 <= i < |s| ==> !IsBlank(s[i]) && s[i] != '\n' && s[i] != '"' && s[i] != ',' && s[i] != '#'
  }

  lemma {:induction false} ScanPlain(s: string, rest: string, buf: string, room: nat)
    requires IsPlain(s) && |buf| + |s| <= room && EndsToken(rest)
    ensures Scan(s + rest, buf, false, false, false, room) == (Token(buf + s, rest), false)
  {
    if s == "" {
      assert s + rest == rest && buf + s == buf;
    } else {
      assert (s + rest)[1..] == s[1..] + rest;
      ScanPlain(s[1..], rest, buf + [s[0]], room);
      assert buf + [s[0]] + s[1..] == buf + s;
    }
  }

  /** An unquoted word comes back as it is, marked with a newline exactly when it is a keyword. */
  lemma UnquotedToken(s: string, rest: string, room: nat)
    requires s != "" && IsPlain(s) && |s| <= room && EndsToken(rest)
    ensures NextTokenSpec(s + rest, room) == Token(if s in {"all", "sameuser", "samegroup"} then s + "\n" else s, rest)
  {
    ScanPlain(s, rest, "", room);
    assert "" + s == s;
    assert SkipBlanks(s + rest) == s + rest;
  }

  lemma {:induction false} ScanPlainOn(s: string, more: string, buf: string, room: nat)
    requires IsPlain(s) && |buf| + |s| <= room
    ensures Scan(s + more, buf, false, false, false, room) == Scan(more, buf + s, false, false, false, room)
  {
    if s == "" {
      assert s + more == more && buf + s == buf;
    } else {
      assert (s + more)[1..] == s[1..] + more;
      ScanPlainOn(s[1..], more, buf + [s[0]], room);
      assert buf + [s[0]] + s[1..] == buf + s;
    }
  }

  lemma {:induction false} ScanQuotedOn(s: string, more: string, buf: string, room: nat)
    requires '\n' !in s && |buf| + |s| < room && (more == "" || more[0] != '"')
    ensures Scan(Doubled(s) + "\"" + more, buf, true, false, true, room) == Scan(more, buf + s, false, true, true, room)
  {
    var f := Doubled(s) + "\"" + more;
    if s == "" {
      assert f == ['"'] + more && f[1..] == more;
      assert buf + s == buf;
    } else {
      var tail := Doubled(s[1..]) + "\"" + more;
      ScanQuotedOn(s[1..], more, buf + [s[0]], room);
      assert buf + [s[0]] + s[1..] == buf + s;
      if s[0] == '"' {
        assert f == ['"', '"'] + tail;
        assert f[1..] == ['"'] + tail && f[1..][1..] == tail;
        assert Scan(f[1..], buf, false, true, true, room) == Scan(tail, buf + ['"'], true, false, true, room);
      } else {
        assert f == [s[0]] + tail && f[1..] == tail;
      }
    }
  }

  lemma {:induction false} ScanAfterQuote(s: string, rest: string, buf: string, wasQuote: bool, room: nat)
    requires IsPlain(s) && |buf| + |s| <= room && EndsToken(rest)
    ensures Scan(s + rest, buf, false, wasQuote, true, room) == (Token(buf + s, rest), true)
  {
    if s == "" {
      assert s + rest == rest && buf + s == buf;
    } else {
      assert (s + rest)[1..] == s[1..] + rest;
      ScanAfterQuote(s[1..], rest, buf + [s[0]], false, room);
      assert buf + [s[0]] + s[1..] == buf + s;
    }
  }

  /** Quotes may stand in the middle of a word: what they enclose is part of it, and the word is no keyword. */
  lemma QuotedPart(front: string, s: string, back: string, rest: string, room: nat)
    requires IsPlain(front) && '\n' !in s && IsPlain(back) && |front| + |s| + |back| < room && EndsToken(rest)
    ensures NextTokenSpec(front + Quoted(s) + back + rest, room) == Token(front + s + back, rest)
  {
    var inner := Doubled(s) + "\"" + (back + rest);
    var more := "\"" + inner;
    assert front + Quoted(s) + back + rest == front + more && more[1..] == inner && "" + front == front;
    ScanPlainOn(front, more, "", room);
    assert Scan(more, front, false, false, false, room) == Scan(inner, front, true, false, true, room);
    ScanQuotedOn(s, back + rest, front, room);
    ScanAfterQuote(back, rest, front + s, true, room);
    assert SkipBlanks(front + more) == front + more;
  }

  /** A comma ends a word, is part of the token and is read again; a keyword before it is an ordinary name. */
  lemma CommaEndsToken(s: string, rest: string, room: nat)
    requires s != "" && IsPlain(s) && |s| < room
    ensures NextTokenSpec(s + "," + rest, room) == Token(s + ",", "," + rest)
  {
    var more := "," + rest;
    assert s + "," + rest == s + more && "" + s == s;
    ScanPlainOn(s, more, "", room);
    assert Scan(more, s, false, false, false, room) == (Token(s + ",", more), false);
    assert SkipBlanks(s + more) == s + more;
    assert (s + ",")[|s|] == ',';
    hide Scan;
    assert !IsKeyword(s + ",") by {
      var a, b, c := "all", "sameuser", "samegroup";
      assert a[|a| - 1] == 'l' && b[|b| - 1] == 'r' && c[|c| - 1] == 'p';
    }
  }

  /** A word too long for the buffer is cut to it, and the rest of the line skipped. */
  lemma LongWordIsCut(s: string, rest: string, room: nat)
    requires IsPlain(s) && 0 < room < |s|
    ensures NextTokenSpec(s + rest, room) == Token(if s[..room] in {"all", "sameuser", "samegroup"} then s[..room] + "\n" else s[..room],
                                                   SkipLine(s[room + 1..] + rest))
  {
    var more := s[room..] + rest;
    assert s + rest == s[..room] + more && "" + s[..room] == s[..room];
    ScanPlainOn(s[..room], more, "", room);
    assert more[0] == s[room] && more[1..] == s[room + 1..] + rest;
    assert SkipBlanks(s + rest) == s + rest;
  }

  /** Blanks and commas before a token do not matter; the end of a line, and a comment up to it, are an empty
      token that leaves the next line. */
  lemma BetweenTokens(c: char, text: string, rest: string, room: nat)
    requires c in {' ', '\t', '\r', ','} && '\n' !in text
    ensures NextTokenSpec([c] + rest, room) == NextTokenSpec(rest, room)
    ensures NextTokenSpec("\n" + rest, room) == NextTokenSpec("#" + text + "\n" + rest, room) == Token("", rest)
  {
    assert ([c] + rest)[1..] == rest;
    var f := "#" + text + "\n" + rest;
    assert f[1..] == text + "\n" + rest;
    LineEnds(text, rest);
    assert Scan(f, "", false, false, false, room) == (Token("", rest), false);
  }

  /** A comment after a word is skipped, but not the end of its line. */
  lemma CommentEndsToken(s: string, text: string, rest: string, room: nat)
    requires s != "" && IsPlain(s) && |s| <= room && '\n' !in text
    ensures NextTokenSpec(s + "#" + text + "\n" + rest, room) ==
            Token(if s in {"all", "sameuser", "samegroup"} then s + "\n" else s, "\n" + rest)
  {
    var more := "#" + text + "\n" + rest;
    assert s + "#" + text + "\n" + rest == s + more && "" + s == s;
    ScanPlainOn(s, more, "", room);
    assert more[1..] == text + "\n" + rest;
    LineEnds(text, rest);
    assert SkipBlanks(s + more) == s + more;
  }

  lemma {:induction false} LineEnds(text: string, rest: string)
    requires '\n' !in text
    ensures SkipLine(text + "\n" + rest) == "\n" + rest
  {
    var f := text + "\n" + rest;
    if text == "" {
      assert f == "\n" + rest;
    } else {
      assert f[1..] == text[1..] + "\n" + rest;
      LineEnds(text[1..], rest);
    }
  }

  // ---------------------------------------------------------------------------------------
  // User and database lists
  // ---------------------------------------------------------------------------------------

  ghost predicate UserMatches(user: string, toks: seq<string>) {
    exists i :: 0 <= i < |toks| && (toks[i] == user || toks[i] == "all\n") &&
                forall k :: 0 <= k <= i ==> toks[k] == "" || toks[k][0] != '+'
  }

  /** check_user on a list already split at its separators. */
  method CheckUser(user: string, toks: seq<string>) returns (r: bool)
    requires forall i :: 0 <= i < |toks| ==> toks[i] != ""
    ensures r == UserMatches(user, toks)
    ensures r <==> exists i :: 0 <= i < |toks| && toks[i] in {user, "all\n"} && forall k :: 0 <= k <= i ==> toks[k][0] != '+'
  {
    for i := 0 to |toks|
      invariant forall k :: 0 <= k < i ==> toks[k][0] != '+' && toks[k] != user && toks[k] != "all\n"
    {
      if toks[i][0] == '+' {
        return false;
      } else if toks[i] == user || toks[i] == "all\n" {
        return true;
      }
    }
    r := false;
  }

  ghost predicate DbEntryMatches(dbname: string, user: string, tok: string) {
    tok == "all\n" || (tok == "sameuser\n" && dbname == user) || (tok == dbname && tok != "sameuser\n" && tok != "samegroup\n")
  }

  ghost predicate DbMatches(dbname: string, user: string, toks: seq<string>) {
    exists i :: 0 <= i < |toks| && DbEntryMatches(dbname, user, toks[i]) &&
                forall k :: 0 <= k < i ==> toks[k] != "samegroup\n"
  }

  /** check_db on a list already split at its separators. */
  method CheckDb(dbname: string, user: string, toks: seq<string>) returns (r: bool)
    ensures r == DbMatches(dbname, user, toks)
    ensures r <==> exists i :: 0 <= i < |toks| && (forall k :: 0 <= k <= i ==> toks[k] != "samegroup\n") &&
                               (toks[i] == "all\n" || if toks[i] == "sameuser\n" then dbname == user else toks[i] == dbname)
  {
    for i := 0 to |toks|
      invariant forall k :: 0 <= k < i ==> toks[k] != "samegroup\n" && !DbEntryMatches(dbname, user, toks[k])
    {
      if toks[i] == "all\n" {
        return true;
      } else if toks[i] == "sameuser\n" {
        if dbname == user { return true; }
      } else if toks[i] == "samegroup\n" {
        return false;
      } else if toks[i] == dbname {
        return true;
      }
    }
    r := false;
  }

  /** Quoting turns the keyword into an ordinary name: an entry written "all" admits the user of that
      name and nobody else, an entry written all without quotes admits everybody. */
  lemma QuotedAllIsAName(user: string, rest: string)
    requires EndsToken(rest)
    ensures UserMatches(user, [NextTokenSpec(Quoted("all") + rest, MAX_TOKEN - 2).text]) <==> user == "all"
    ensures UserMatches(user, [NextTokenSpec("all" + rest, MAX_TOKEN - 2).text])
  {
    QuotedRoundTrip("all", rest, MAX_TOKEN - 2);
    UnquotedToken("all", rest, MAX_TOKEN - 2);
    var plain := "all\n";
    assert "all" + "\n" == plain;
    assert [plain][0] == plain && plain[0] != '+';
    var quoted := "all";
    if user == "all" { assert [quoted][0] == user && quoted[0] != '+'; }
  }
}
