/**
 * The layer-title parser `parse_name` (harvest_helpers.py:37-174): it splits
 * a title such as "Misc Transport (Point) (Lgate-037) (18-10-2012 16:54:00)"
 * into a title, a lower-case slug and an ISO timestamp, using fixed offsets
 * from the end of the token list. The clock is a parameter.
 */
module NameParser {
  import opened Wrappers
  import opened Text
  import opened Timestamps

  /** The parser's result: `(title, name, date)`. */
  datatype ParsedName = ParsedName(title: string, name: Option<string>, published: string)

  /** No lower-case ASCII letter is directly followed by `(`. */
  predicate NoLowerBeforeParen(s: string) {
    forall i :: 0 <= i < |s| - 1 ==> !(IsLower(s[i]) && s[i + 1] == '(')
  }

  /**
   * `re.sub(r"[a-z]\(", " (", text)`: each lower-case letter directly before
   * `(` is replaced by a space, so "Rivers(LGATE-053)" becomes "River (LGATE-053)".
   */
  function InsertParenSpace(s: string): (r: string)
    decreases |s|
  {
    if |s| >= 2 && IsLower(s[0]) && s[1] == '(' then
      " (" + InsertParenSpace(s[2..])
    else if s == [] then []
    else [s[0]] + InsertParenSpace(s[1..])
  }

  /** After the repair no lower-case letter is directly followed by `(`. */
  lemma {:induction false} InsertParenSpaceRepairs(s: string)
    ensures NoLowerBeforeParen(InsertParenSpace(s))
    ensures |s| > 0 ==> |InsertParenSpace(s)| > 0 && (InsertParenSpace(s)[0] == '(' <==> s[0] == '(')
    decreases |s|
  {
    var r := InsertParenSpace(s);
    if |s| >= 2 && IsLower(s[0]) && s[1] == '(' {
      var t := InsertParenSpace(s[2..]);
      InsertParenSpaceRepairs(s[2..]);
      forall i | 0 <= i < |r| - 1 ensures !(IsLower(r[i]) && r[i + 1] == '(') {
        if i >= 2 {
          assert r[i] == t[i - 2] && r[i + 1] == t[i - 1];
        }
      }
    } else if s != [] {
      var t := InsertParenSpace(s[1..]);
      InsertParenSpaceRepairs(s[1..]);
      forall i | 0 <= i < |r| - 1 ensures !(IsLower(r[i]) && r[i + 1] == '(') {
        if i >= 1 {
          assert r[i] == t[i - 1] && r[i + 1] == t[i];
        } else if IsLower(s[0]) {
          assert |s| >= 2 && s[1] != '(';
          assert r[1] == t[0];
        }
      }
    }
  }

  /** A text without a lower-case letter before `(` is left unchanged. */
  lemma {:induction false} InsertParenSpaceKeeps(s: string)
    requires NoLowerBeforeParen(s)
    ensures InsertParenSpace(s) == s
    decreases |s|
  {
    if s != [] {
      assert !(|s| >= 2 && IsLower(s[0]) && s[1] == '(');
      NoLowerBeforeParenSlices(s, 1);
      InsertParenSpaceKeeps(s[1..]);
      assert [s[0]] + s[1..] == s;
    }
  }

  /** `text.encode('utf-8').split()` after the repair above. */
  function Tokens(text: string): seq<string> {
    Words(InsertParenSpace(text))
  }

  function Last(p: seq<string>): string
    requires |p| > 0
  {
    p[|p| - 1]
  }

  /**
   * The token lists `parse_name` handles without an IndexError: there is a
   * last token; unless it starts with `(` there is a second-to-last one
   * (read as the date at line 146); and unless it starts with `(` or does
   * not end with `)`, a third-to-last one (read as the slug at line 164).
   */
  predicate ParseableTokens(p: seq<string>) {
    |p| >= 1 && (StartsWith(Last(p), '(') || (|p| >= 2 && (!EndsWith(Last(p), ')') || |p| >= 3)))
  }

  /**
   * How many tokens at the end are the slug and date: none when the last
   * token does not end with `)`, one when it is a lone parenthetical, else
   * three (slug, date, time).
   */
  function ConsumedTokens(p: seq<string>): nat
    requires |p| > 0
  {
    if !EndsWith(Last(p), ')') then 0
    else if StartsWith(Last(p), '(') then 1
    else 3
  }

  /** The slug: the first consumed token, without parentheses, lower-cased. */
  function SlugIn(p: seq<string>): Option<string>
    requires ParseableTokens(p)
  {
    var k := ConsumedTokens(p);
    if k == 0 then None else Some(Lower(StripParens(p[|p| - k])))
  }

  /** The title: the tokens before the consumed ones, joined with single spaces. */
  function TitleIn(p: seq<string>): string
    requires ParseableTokens(p)
  {
    Join(p[..|p| - ConsumedTokens(p)])
  }

  /**
   * The date: none when the last token starts with `(`; otherwise the last
   * two tokens, less their parentheses, as `DD-MM-YYYY HH:MM:SS`; `now` when
   * there is no date or it does not parse.
   */
  function PublishedIn(p: seq<string>, now: DateTime): string
    requires ParseableTokens(p) && IsFormattable(now)
  {
    if StartsWith(Last(p), '(') then FormatIso(now)
    else
      match ParseTimestamp(Remove(p[|p| - 2], '('), Remove(Last(p), ')'))
      case Some(t) => FormatIso(t)
      case None => FormatIso(now)
  }

  predicate Parseable(text: string) {
    ParseableTokens(Tokens(text))
  }

  function SlugOf(text: string): Option<string>
    requires Parseable(text)
  {
    SlugIn(Tokens(text))
  }

  function TitleOf(text: string): string
    requires Parseable(text)
  {
    TitleIn(Tokens(text))
  }

  function PublishedOf(text: string, now: DateTime): string
    requires Parseable(text) && IsFormattable(now)
  {
    PublishedIn(Tokens(text), now)
  }

  /** What `parse_name(text)` returns when the clock reads `now`. */
  function NameOf(text: string, now: DateTime): ParsedName
    requires Parseable(text) && IsFormattable(now)
  {
    ParsedName(TitleOf(text), SlugOf(text), PublishedOf(text, now))
  }

  /**
   * The date block of `parse_name` (lines 145-161): unless the date is
   * missing, the last two tokens are tried as a timestamp; the clock is
   * read when the date is missing or does not parse.
   */
  method DateOrClock(p: seq<string>, dateMissing: bool, setDummyDate: bool, now: DateTime) returns (published: string)
    requires ParseableTokens(p) && IsFormattable(now)
    requires dateMissing == setDummyDate == StartsWith(Last(p), '(')
    ensures published == PublishedIn(p, now)
  {
    var setDummy := setDummyDate;
    published := "";
    if !dateMissing {
      // The `try` block: `strptime` then `strftime`, either of which may raise `ValueError`.
      var parsed := ParseTimestamp(Remove(p[|p| - 2], '('), Remove(p[|p| - 1], ')'));
      if parsed.Some? {
        published := FormatIso(parsed.value);
      } else {
        setDummy := true;
      }
    }

    if setDummy {
      published := FormatIso(now);
    }
  }

  /**
   * `parse_name` as written: the flags `chop_off`, `date_missing` and
   * `set_dummy_date` are set step by step and decide which tokens are read.
   */
  method ParseName(text: string, now: DateTime) returns (title: string, name: Option<string>, published: string)
    requires Parseable(text) && IsFormattable(now)
    ensures ParsedName(title, name, published) == NameOf(text, now)
  {
    var chopOff := 3;
    var dateMissing := false;
    var setDummyDate := false;

    var p := Words(InsertParenSpace(text));
    assert p == Tokens(text) && ParseableTokens(p);

    if StartsWith(p[|p| - 1], '(') {
      chopOff := 1;
      dateMissing := true;
      setDummyDate := true;
    }

    published := DateOrClock(p, dateMissing, setDummyDate, now);

    if EndsWith(p[|p| - 1], ')') {
      assert chopOff == ConsumedTokens(p);
      name := Some(Lower(StripParens(p[|p| - chopOff])));
      assert name == SlugIn(p);
    } else {
      chopOff := 0;
      name := None;
      assert name == SlugIn(p);
    }

    assert chopOff == ConsumedTokens(p);
    title := Join(p[..|p| - chopOff]);
  }

  // ---------------------------------------------------------------------------
  // Titles built from tokens

  /** A token that the repair step leaves alone. */
  predicate IsPlainWord(w: string) {
    IsWord(w) && NoLowerBeforeParen(w)
  }

  /** Text free of whitespace and parentheses, as a slug or a date field. */
  predicate IsBare(s: string) {
    forall i :: 0 <= i < |s| ==> !IsSpace(s[i]) && s[i] != '(' && s[i] != ')'
  }

  lemma WordWithoutParenIsPlain(w: string)
    requires IsWord(w) && '(' !in w
    ensures IsPlainWord(w)
  {
    forall i | 0 <= i < |w| - 1 ensures !(IsLower(w[i]) && w[i + 1] == '(') {
      assert w[i + 1] in w;
    }
  }

  lemma NoLowerBeforeParenSpaced(a: string, b: string)
    requires NoLowerBeforeParen(a) && NoLowerBeforeParen(b)
    ensures NoLowerBeforeParen(a + " " + b)
  {
    var s := a + " " + b;
    forall i | 0 <= i < |s| - 1 ensures !(IsLower(s[i]) && s[i + 1] == '(') {
      if i < |a| - 1 {
        assert s[i] == a[i] && s[i + 1] == a[i + 1];
      } else if i > |a| {
        assert s[i] == b[i - |a| - 1] && s[i + 1] == b[i - |a|];
      }
    }
  }

  lemma {:induction false} JoinNoLowerBeforeParen(ws: seq<string>)
    requires forall i :: 0 <= i < |ws| ==> NoLowerBeforeParen(ws[i])
    ensures NoLowerBeforeParen(Join(ws))
  {
    if |ws| > 1 {
      JoinNoLowerBeforeParen(ws[1..]);
      NoLowerBeforeParenSpaced(ws[0], Join(ws[1..]));
    }
  }

  /** A title made of plain tokens splits back into exactly those tokens. */
  lemma TokensOfJoin(ws: seq<string>)
    requires forall i :: 0 <= i < |ws| ==> IsPlainWord(ws[i])
    ensures Tokens(Join(ws)) == ws
  {
    JoinNoLowerBeforeParen(ws);
    InsertParenSpaceKeeps(Join(ws));
    WordsOfJoin(ws);
  }

  lemma ParenthesizedIsPlain(id: string)
    requires IsBare(id)
    ensures IsPlainWord("(" + id + ")")
    ensures StartsWith("(" + id + ")", '(') && EndsWith("(" + id + ")", ')')
    ensures StripParens("(" + id + ")") == id
  {
    var w := "(" + id + ")";
    forall i | 0 <= i < |w| - 1 ensures !(IsLower(w[i]) && w[i + 1] == '(') {
      if i + 1 < |w| - 1 {
        assert w[i + 1] == id[i];
      }
    }
    StripParenthesized(id);
  }

  lemma StripParenthesized(id: string)
    requires IsBare(id)
    ensures StripParens("(" + id + ")") == id
  {
    RemoveAppend("(" + id, ")", '(');
    assert Remove("(" + id, '(') == id by {
      assert ("(" + id)[1..] == id;
      assert '(' !in id;
    }
    assert Remove(")", '(') == ")" by {
      assert ")"[1..] == [];
    }
    RemoveAppend(id, ")", ')');
    assert Remove(")", ')') == [] by {
      assert ")"[1..] == [];
    }
    assert ')' !in id;
  }

  lemma {:induction false} RemoveAppend(a: string, b: string, c: char)
    ensures Remove(a + b, c) == Remove(a, c) + Remove(b, c)
  {
    if a != [] {
      assert (a + b)[1..] == a[1..] + b;
      RemoveAppend(a[1..], b, c);
    } else {
      assert a + b == b;
    }
  }

  /**
   * No closing parenthesis at the end: no slug, and the title is every token
   * rejoined with single spaces.
   */
  lemma NoSlugTitle(ws: seq<string>, now: DateTime)
    requires |ws| >= 1 && forall i :: 0 <= i < |ws| ==> IsPlainWord(ws[i])
    requires !EndsWith(Last(ws), ')')
    requires |ws| >= 2 || StartsWith(Last(ws), '(')
    requires IsFormattable(now)
    ensures Parseable(Join(ws))
    ensures SlugOf(Join(ws)) == None
    ensures TitleOf(Join(ws)) == Join(ws)
  {
    TokensOfJoin(ws);
    WholeTitle(ws);
  }

  lemma WholeTitle(p: seq<string>)
    requires |p| >= 1 && !EndsWith(Last(p), ')')
    requires |p| >= 2 || StartsWith(Last(p), '(')
    ensures ParseableTokens(p) && SlugIn(p) == None && TitleIn(p) == Join(p)
  {
    assert p[..|p|] == p;
  }

  /**
   * Exactly one trailing parenthetical: it is the slug, the title is the
   * tokens before it, and the date is the clock's.
   */
  lemma SingleParenthetical(ws: seq<string>, id: string, now: DateTime)
    requires forall i :: 0 <= i < |ws| ==> IsPlainWord(ws[i])
    requires IsBare(id) && IsFormattable(now)
    ensures Parseable(Join(ws + ["(" + id + ")"]))
    ensures NameOf(Join(ws + ["(" + id + ")"]), now) == ParsedName(Join(ws), Some(Lower(id)), FormatIso(now))
  {
    var token := "(" + id + ")";
    var p := ws + [token];
    ParenthesizedIsPlain(id);
    AllPlainAppend(ws, [token]);
    TokensOfJoin(p);
    LoneParenthetical(p, now);
    assert p[..|p| - 1] == ws && Last(p) == token;
  }

  lemma AllPlainAppend(ws: seq<string>, vs: seq<string>)
    requires forall i :: 0 <= i < |ws| ==> IsPlainWord(ws[i])
    requires forall i :: 0 <= i < |vs| ==> IsPlainWord(vs[i])
    ensures forall i :: 0 <= i < |ws + vs| ==> IsPlainWord((ws + vs)[i])
  {
    forall i | 0 <= i < |ws + vs| ensures IsPlainWord((ws + vs)[i]) {
      if i >= |ws| {
        assert (ws + vs)[i] == vs[i - |ws|];
      }
    }
  }

  /** A lone parenthetical at the end is the slug, and the clock gives the date. */
  lemma LoneParenthetical(p: seq<string>, now: DateTime)
    requires |p| >= 1 && StartsWith(Last(p), '(') && EndsWith(Last(p), ')') && IsFormattable(now)
    ensures ParseableTokens(p) && ConsumedTokens(p) == 1
    ensures SlugIn(p) == Some(Lower(StripParens(Last(p))))
    ensures TitleIn(p) == Join(p[..|p| - 1])
    ensures PublishedIn(p, now) == FormatIso(now)
  {
  }

  /**
   * A slug token followed by a date and a time in parentheses: the slug is
   * the third-from-last token without parentheses, lower-cased (whether or
   * not it was parenthesized), the title is the tokens before it, and the
   * date is the reformatted pair when it parses and the clock's otherwise.
   */
  lemma DatedShape(ws: seq<string>, slugToken: string, datePart: string, timePart: string, now: DateTime)
    requires forall i :: 0 <= i < |ws| ==> IsPlainWord(ws[i])
    requires IsPlainWord(slugToken) && IsBare(datePart) && IsBare(timePart) && IsFormattable(now)
    ensures Parseable(Join(ws + [slugToken, "(" + datePart, timePart + ")"]))
    ensures NameOf(Join(ws + [slugToken, "(" + datePart, timePart + ")"]), now)
         == ParsedName(Join(ws), Some(Lower(StripParens(slugToken))),
                       match ParseTimestamp(datePart, timePart)
                       case Some(t) => FormatIso(t)
                       case None => FormatIso(now))
  {
    var p := ws + [slugToken, "(" + datePart, timePart + ")"];
    DateTokens(datePart, timePart);
    TokensOfJoin(p);
    DatedTokens(Join(p), ws, slugToken, datePart, timePart, now);
  }

  /** `DatedShape` for any text whose tokens have that shape. */
  lemma DatedTokens(text: string, ws: seq<string>, slugToken: string, datePart: string, timePart: string, now: DateTime)
    requires Tokens(text) == ws + [slugToken, "(" + datePart, timePart + ")"]
    requires IsBare(datePart) && IsBare(timePart) && IsFormattable(now)
    ensures Parseable(text)
    ensures NameOf(text, now)
         == ParsedName(Join(ws), Some(Lower(StripParens(slugToken))),
                       match ParseTimestamp(datePart, timePart)
                       case Some(t) => FormatIso(t)
                       case None => FormatIso(now))
  {
    var p := Tokens(text);
    DateTokens(datePart, timePart);
    assert p[..|p| - 3] == ws;
  }

  /** The tokens "(DD-MM-YYYY" and "HH:MM:SS)" are plain, and stripping them gives the two parts. */
  lemma DateTokens(datePart: string, timePart: string)
    requires IsBare(datePart) && IsBare(timePart)
    ensures IsPlainWord("(" + datePart) && IsPlainWord(timePart + ")")
    ensures !StartsWith(timePart + ")", '(') && EndsWith(timePart + ")", ')')
    ensures Remove("(" + datePart, '(') == datePart && Remove(timePart + ")", ')') == timePart
  {
    var d, e := "(" + datePart, timePart + ")";
    forall i | 0 <= i < |d| - 1 ensures !(IsLower(d[i]) && d[i + 1] == '(') {
      assert d[i + 1] == datePart[i];
    }
    forall i | 0 <= i < |e| - 1 ensures !(IsLower(e[i]) && e[i + 1] == '(') {
      assert e[i + 1] == if i + 1 < |timePart| then timePart[i + 1] else ')';
    }
    if timePart != [] {
      assert e[0] == timePart[0];
    }
    assert d[1..] == datePart;
    RemoveAppend(timePart, ")", ')');
    assert ")"[1..] == [];
  }

  /**
   * The shape "T (ID) (DD-MM-YYYY HH:MM:SS)" with a real date gives
   * `(T, id.lower(), the ISO form of that date)`.
   */
  lemma DatedTitle(ws: seq<string>, id: string, t: DateTime, now: DateTime)
    requires forall i :: 0 <= i < |ws| ==> IsPlainWord(ws[i])
    requires IsBare(id) && IsFormattable(t) && IsFormattable(now)
    ensures Parseable(Join(ws + ["(" + id + ")", "(" + DayMonthYear(t), HourMinuteSecond(t) + ")"]))
    ensures NameOf(Join(ws + ["(" + id + ")", "(" + DayMonthYear(t), HourMinuteSecond(t) + ")"]), now)
         == ParsedName(Join(ws), Some(Lower(id)), FormatIso(t))
  {
    ParenthesizedIsPlain(id);
    TimestampPartsAreBare(t);
    ParseTimestampRoundTrip(t);
    DatedShape(ws, "(" + id + ")", DayMonthYear(t), HourMinuteSecond(t), now);
  }

  lemma BareConcat(a: string, b: string)
    requires IsBare(a) && IsBare(b)
    ensures IsBare(a + b)
  {
    forall i | 0 <= i < |a + b| ensures (a + b)[i] == if i < |a| then a[i] else b[i - |a|] {
    }
  }

  lemma TimestampPartsAreBare(t: DateTime)
    requires IsValid(t)
    ensures IsBare(DayMonthYear(t)) && IsBare(HourMinuteSecond(t))
  {
    Pad2Value(t.day);
    Pad2Value(t.month);
    Pad4Value(t.year);
    Pad2Value(t.hour);
    Pad2Value(t.minute);
    Pad2Value(t.second);
    BareConcat(Pad2(t.day), "-");
    BareConcat(Pad2(t.day) + "-", Pad2(t.month));
    BareConcat(Pad2(t.day) + "-" + Pad2(t.month), "-");
    BareConcat(Pad2(t.day) + "-" + Pad2(t.month) + "-", Pad4(t.year));
    BareConcat(Pad2(t.hour), ":");
    BareConcat(Pad2(t.hour) + ":", Pad2(t.minute));
    BareConcat(Pad2(t.hour) + ":" + Pad2(t.minute), ":");
    BareConcat(Pad2(t.hour) + ":" + Pad2(t.minute) + ":", Pad2(t.second));
  }

  lemma NoLowerBeforeParenSlices(s: string, k: nat)
    requires NoLowerBeforeParen(s) && k <= |s|
    ensures NoLowerBeforeParen(s[..k]) && NoLowerBeforeParen(s[k..])
  {
    forall i | 0 <= i < |s[k..]| - 1 ensures !(IsLower(s[k..][i]) && s[k..][i + 1] == '(') {
      assert s[k..][i] == s[k + i] && s[k..][i + 1] == s[k + i + 1];
    }
  }

  /** A text without glued parentheses, extended at the front, is repaired only at the junction. */
  lemma {:induction false} InsertParenSpaceAppend(p: string, q: string)
    requires NoLowerBeforeParen(p)
    requires p == [] || q == [] || !(IsLower(p[|p| - 1]) && q[0] == '(')
    ensures InsertParenSpace(p + q) == p + InsertParenSpace(q)
    decreases |p|
  {
    if p == [] {
      assert p + q == q;
    } else {
      var s, tail := p + q, p[1..];
      assert s[1..] == tail + q;
      assert !(|s| >= 2 && IsLower(s[0]) && s[1] == '(') by {
        if |p| >= 2 {
          assert s[1] == p[1];
        } else if |s| >= 2 {
          assert s[1] == q[0];
        }
      }
      assert InsertParenSpace(s) == [p[0]] + InsertParenSpace(tail + q);
      NoLowerBeforeParenSlices(p, 1);
      assert tail == [] || q == [] || !(IsLower(tail[|tail| - 1]) && q[0] == '(') by {
        if tail != [] {
          assert tail[|tail| - 1] == p[|p| - 1];
        }
      }
      InsertParenSpaceAppend(tail, q);
      assert [p[0]] + (tail + InsertParenSpace(q)) == p + InsertParenSpace(q);
    }
  }

  /**
   * The repair at line 130 consumes the letter it finds before `(`: in
   * "...Rivers(ID) ..." the `s` is replaced by a space, leaving "...River (ID) ...".
   */
  lemma RepairGluedParen(p: string, c: char, rest: string)
    requires IsLower(c)
    requires NoLowerBeforeParen(p + " (" + rest)
    ensures InsertParenSpace(p + [c] + "(" + rest) == p + " (" + rest
  {
    RepairedParts(p, rest);
    var q := [c] + "(" + rest;
    RepairAtFront(c, rest);
    assert q[0] == c;
    InsertParenSpaceAppend(p, q);
    assert p + [c] + "(" + rest == p + q;
    assert p + (" (" + rest) == p + " (" + rest;
  }

  lemma RepairedParts(p: string, rest: string)
    requires NoLowerBeforeParen(p + " (" + rest)
    ensures NoLowerBeforeParen(p) && NoLowerBeforeParen(rest)
  {
    var repaired := p + " (" + rest;
    NoLowerBeforeParenSlices(repaired, |p|);
    NoLowerBeforeParenSlices(repaired, |p| + 2);
    assert repaired[..|p|] == p;
    assert repaired[|p| + 2..] == rest;
  }

  lemma RepairAtFront(c: char, rest: string)
    requires IsLower(c) && NoLowerBeforeParen(rest)
    ensures InsertParenSpace([c] + "(" + rest) == " (" + rest
  {
    var q := [c] + "(" + rest;
    assert q[0] == c && q[1] == '(' && q[2..] == rest;
    InsertParenSpaceKeeps(rest);
  }
}
