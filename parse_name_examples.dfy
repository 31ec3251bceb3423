/** The doctests of `parse_name` (harvest_helpers.py:52-118), with the clock as a parameter. */
module ParseNameExamples {
  import opened Wrappers
  import opened Text
  import opened Timestamps
  import opened NameParser

  /** One step of building a literal " ".join from left to right. */
  lemma JoinExtend(ws: seq<string>, w: string, s: string, r: string)
    requires ws != [] && Join(ws) == s && s + " " + w == r
    ensures Join(ws + [w]) == r
  {
    JoinSnoc(ws, w);
  }

  lemma PlainWords(ws: seq<string>)
    requires forall i :: 0 <= i < |ws| ==> IsWord(ws[i]) && '(' !in ws[i]
    ensures forall i :: 0 <= i < |ws| ==> IsPlainWord(ws[i])
  {
    forall i | 0 <= i < |ws| ensures IsPlainWord(ws[i]) {
      WordWithoutParenIsPlain(ws[i]);
    }
  }

  lemma HydrographicTitle()
    ensures forall i :: 0 <= i < 4 ==> IsPlainWord(["Hydrographic", "Catchments", "-", "Basins"][i])
    ensures Join(["Hydrographic", "Catchments", "-", "Basins"]) == "Hydrographic Catchments - Basins"
  {
    PlainWords(["Hydrographic", "Catchments", "-", "Basins"]);
    var l1 := ["Hydrographic"];
    JoinExtend(l1, "Catchments", "Hydrographic", "Hydrographic Catchments");
    var l2 := l1 + ["Catchments"];
    JoinExtend(l2, "-", "Hydrographic Catchments", "Hydrographic Catchments -");
    var l3 := l2 + ["-"];
    JoinExtend(l3, "Basins", "Hydrographic Catchments -", "Hydrographic Catchments - Basins");
    assert l3 + ["Basins"] == ["Hydrographic", "Catchments", "-", "Basins"];
  }

  lemma HydrographicText5()
    ensures Join(["Hydrographic", "Catchments", "-", "Basins", "(Dow-013)"])
         == "Hydrographic Catchments - Basins (Dow-013)"
  {
    var l4 := ["Hydrographic", "Catchments", "-", "Basins"];
    HydrographicTitle();
    JoinExtend(l4, "(Dow-013)", "Hydrographic Catchments - Basins", "Hydrographic Catchments - Basins (Dow-013)");
    assert l4 + ["(Dow-013)"] == ["Hydrographic", "Catchments", "-", "Basins", "(Dow-013)"];
  }

  lemma HydrographicText6()
    ensures Join(["Hydrographic", "Catchments", "-", "Basins", "(Dow-013)", "(03-11-2008"])
         == "Hydrographic Catchments - Basins (Dow-013) (03-11-2008"
  {
    var l5 := ["Hydrographic", "Catchments", "-", "Basins", "(Dow-013)"];
    HydrographicText5();
    JoinExtend(l5, "(03-11-2008", "Hydrographic Catchments - Basins (Dow-013)",
      "Hydrographic Catchments - Basins (Dow-013) (03-11-2008");
    assert l5 + ["(03-11-2008"] == ["Hydrographic", "Catchments", "-", "Basins", "(Dow-013)", "(03-11-2008"];
  }

  lemma HydrographicDatedText()
    ensures Join(["Hydrographic", "Catchments", "-", "Basins", "(Dow-013)", "(03-11-2008", "15:07:44)"])
         == "Hydrographic Catchments - Basins (Dow-013) (03-11-2008 15:07:44)"
  {
    var l6 := ["Hydrographic", "Catchments", "-", "Basins", "(Dow-013)", "(03-11-2008"];
    HydrographicText6();
    JoinExtend(l6, "15:07:44)", "Hydrographic Catchments - Basins (Dow-013) (03-11-2008",
      "Hydrographic Catchments - Basins (Dow-013) (03-11-2008 15:07:44)");
    assert l6 + ["15:07:44)"] == ["Hydrographic", "Catchments", "-", "Basins", "(Dow-013)", "(03-11-2008", "15:07:44)"];
  }

  lemma HydrographicDate()
    ensures IsFormattable(DateTime(2008, 11, 3, 15, 7, 44))
    ensures "(" + DayMonthYear(DateTime(2008, 11, 3, 15, 7, 44)) == "(03-11-2008"
  {
    assert DayMonthYear(DateTime(2008, 11, 3, 15, 7, 44)) == "03-11-2008";
  }

  lemma HydrographicTime()
    ensures HourMinuteSecond(DateTime(2008, 11, 3, 15, 7, 44)) + ")" == "15:07:44)"
  {
    assert HourMinuteSecond(DateTime(2008, 11, 3, 15, 7, 44)) == "15:07:44";
  }

  lemma HydrographicIso()
    ensures FormatIso(DateTime(2008, 11, 3, 15, 7, 44)) == "2008-11-03T15:07:44"
  {
  }

  lemma DowSlug()
    ensures Lower("Dow-013") == "dow-013"
    ensures IsBare("Dow-013") && "(" + "Dow-013" + ")" == "(Dow-013)"
  {
  }

  /** A dated title `ws (id) (dd-mm-yyyy HH:MM:SS)`, with every piece given as a literal. */
  lemma DatedExample(ws: seq<string>, id: string, t: DateTime, now: DateTime,
                     text: string, title: string, slug: string, published: string)
    requires forall i :: 0 <= i < |ws| ==> IsPlainWord(ws[i])
    requires IsBare(id) && IsFormattable(t) && IsFormattable(now)
    requires Join(ws + ["(" + id + ")", "(" + DayMonthYear(t), HourMinuteSecond(t) + ")"]) == text
    requires Join(ws) == title && Lower(id) == slug && FormatIso(t) == published
    ensures Parseable(text) && NameOf(text, now) == ParsedName(title, Some(slug), published)
  {
    DatedTitle(ws, id, t, now);
  }

  /** "Hydrographic Catchments - Basins (Dow-013) (03-11-2008 15:07:44)" (lines 52-61). */
  lemma HydrographicCatchmentsDated(now: DateTime)
    requires IsFormattable(now)
    ensures Parseable("Hydrographic Catchments - Basins (Dow-013) (03-11-2008 15:07:44)")
    ensures NameOf("Hydrographic Catchments - Basins (Dow-013) (03-11-2008 15:07:44)", now)
         == ParsedName("Hydrographic Catchments - Basins", Some("dow-013"), "2008-11-03T15:07:44")
  {
    var ws := ["Hydrographic", "Catchments", "-", "Basins"];
    var t := DateTime(2008, 11, 3, 15, 7, 44);
    HydrographicTitle();
    HydrographicDate();
    HydrographicTime();
    HydrographicIso();
    DowSlug();
    HydrographicDatedText();
    assert ws + ["(" + "Dow-013" + ")", "(" + DayMonthYear(t), HourMinuteSecond(t) + ")"]
        == ["Hydrographic", "Catchments", "-", "Basins", "(Dow-013)", "(03-11-2008", "15:07:44)"];
    DatedExample(ws, "Dow-013", t, now, "Hydrographic Catchments - Basins (Dow-013) (03-11-2008 15:07:44)",
      "Hydrographic Catchments - Basins", "dow-013", "2008-11-03T15:07:44");
  }

  /** A title ending in one parenthetical `ws (id)`, with every piece given as a literal. */
  lemma SingleExample(ws: seq<string>, id: string, now: DateTime, text: string, title: string, slug: string)
    requires forall i :: 0 <= i < |ws| ==> IsPlainWord(ws[i])
    requires IsBare(id) && IsFormattable(now)
    requires Join(ws + ["(" + id + ")"]) == text
    requires Join(ws) == title && Lower(id) == slug
    ensures Parseable(text) && NameOf(text, now) == ParsedName(title, Some(slug), FormatIso(now))
  {
    SingleParenthetical(ws, id, now);
  }

  /** "Hydrographic Catchments - Basins (Dow-013)" (lines 74-83): no date, so the clock's. */
  lemma HydrographicCatchmentsUndated(now: DateTime)
    requires IsFormattable(now)
    ensures Parseable("Hydrographic Catchments - Basins (Dow-013)")
    ensures NameOf("Hydrographic Catchments - Basins (Dow-013)", now)
         == ParsedName("Hydrographic Catchments - Basins", Some("dow-013"), FormatIso(now))
  {
    var ws := ["Hydrographic", "Catchments", "-", "Basins"];
    HydrographicTitle();
    DowSlug();
    JoinExtend(ws, "(Dow-013)", "Hydrographic Catchments - Basins", "Hydrographic Catchments - Basins (Dow-013)");
    SingleExample(ws, "Dow-013", now, "Hydrographic Catchments - Basins (Dow-013)",
      "Hydrographic Catchments - Basins", "dow-013");
  }

  lemma PointIsPlain()
    ensures IsPlainWord("(Point)")
  {
    assert IsBare("Point");
    ParenthesizedIsPlain("Point");
    assert "(" + "Point" + ")" == "(Point)";
  }

  lemma MiscTransportTitle()
    ensures forall i :: 0 <= i < 3 ==> IsPlainWord(["Misc", "Transport", "(Point)"][i])
    ensures Join(["Misc", "Transport", "(Point)"]) == "Misc Transport (Point)"
  {
    PointIsPlain();
    PlainWords(["Misc", "Transport"]);
    var l1 := ["Misc"];
    JoinExtend(l1, "Transport", "Misc", "Misc Transport");
    var l2 := l1 + ["Transport"];
    JoinExtend(l2, "(Point)", "Misc Transport", "Misc Transport (Point)");
    assert l2 + ["(Point)"] == ["Misc", "Transport", "(Point)"];
  }

  lemma MiscTransportDate()
    ensures IsFormattable(DateTime(2012, 10, 18, 16, 54, 0))
    ensures "(" + DayMonthYear(DateTime(2012, 10, 18, 16, 54, 0)) == "(18-10-2012"
  {
    assert DayMonthYear(DateTime(2012, 10, 18, 16, 54, 0)) == "18-10-2012";
  }

  lemma MiscTransportTime()
    ensures HourMinuteSecond(DateTime(2012, 10, 18, 16, 54, 0)) + ")" == "16:54:00)"
  {
    assert HourMinuteSecond(DateTime(2012, 10, 18, 16, 54, 0)) == "16:54:00";
  }

  lemma MiscTransportIso()
    ensures FormatIso(DateTime(2012, 10, 18, 16, 54, 0)) == "2012-10-18T16:54:00"
  {
  }

  lemma LgateSlug()
    ensures IsBare("Lgate-037") && "(" + "Lgate-037" + ")" == "(Lgate-037)"
    ensures Lower("Lgate-037") == "lgate-037"
  {
  }

  lemma MiscTransportText4()
    ensures Join(["Misc", "Transport", "(Point)", "(Lgate-037)"]) == "Misc Transport (Point) (Lgate-037)"
  {
    var l3 := ["Misc", "Transport", "(Point)"];
    MiscTransportTitle();
    JoinExtend(l3, "(Lgate-037)", "Misc Transport (Point)", "Misc Transport (Point) (Lgate-037)");
    assert l3 + ["(Lgate-037)"] == ["Misc", "Transport", "(Point)", "(Lgate-037)"];
  }

  lemma MiscTransportText5()
    ensures Join(["Misc", "Transport", "(Point)", "(Lgate-037)", "(18-10-2012"])
         == "Misc Transport (Point) (Lgate-037) (18-10-2012"
  {
    var l4 := ["Misc", "Transport", "(Point)", "(Lgate-037)"];
    MiscTransportText4();
    JoinExtend(l4, "(18-10-2012", "Misc Transport (Point) (Lgate-037)", "Misc Transport (Point) (Lgate-037) (18-10-2012");
    assert l4 + ["(18-10-2012"] == ["Misc", "Transport", "(Point)", "(Lgate-037)", "(18-10-2012"];
  }

  lemma MiscTransportText()
    ensures Join(["Misc", "Transport", "(Point)", "(Lgate-037)", "(18-10-2012", "16:54:00)"])
         == "Misc Transport (Point) (Lgate-037) (18-10-2012 16:54:00)"
  {
    var l5 := ["Misc", "Transport", "(Point)", "(Lgate-037)", "(18-10-2012"];
    MiscTransportText5();
    JoinExtend(l5, "16:54:00)", "Misc Transport (Point) (Lgate-037) (18-10-2012",
      "Misc Transport (Point) (Lgate-037) (18-10-2012 16:54:00)");
    assert l5 + ["16:54:00)"] == ["Misc", "Transport", "(Point)", "(Lgate-037)", "(18-10-2012", "16:54:00)"];
  }

  /**
   * "Misc Transport (Point) (Lgate-037) (18-10-2012 16:54:00)" (lines 63-72):
   * an inner parenthetical stays in the title.
   */
  lemma MiscTransportDated(now: DateTime)
    requires IsFormattable(now)
    ensures Parseable("Misc Transport (Point) (Lgate-037) (18-10-2012 16:54:00)")
    ensures NameOf("Misc Transport (Point) (Lgate-037) (18-10-2012 16:54:00)", now)
         == ParsedName("Misc Transport (Point)", Some("lgate-037"), "2012-10-18T16:54:00")
  {
    var ws := ["Misc", "Transport", "(Point)"];
    var t := DateTime(2012, 10, 18, 16, 54, 0);
    MiscTransportTitle();
    MiscTransportDate();
    MiscTransportTime();
    MiscTransportIso();
    LgateSlug();
    MiscTransportText();
    assert ws + ["(" + "Lgate-037" + ")", "(" + DayMonthYear(t), HourMinuteSecond(t) + ")"]
        == ["Misc", "Transport", "(Point)", "(Lgate-037)", "(18-10-2012", "16:54:00)"];
    DatedExample(ws, "Lgate-037", t, now, "Misc Transport (Point) (Lgate-037) (18-10-2012 16:54:00)",
      "Misc Transport (Point)", "lgate-037", "2012-10-18T16:54:00");
  }

  /** "Graticule (REF-001)" (lines 96-105). */
  lemma GraticuleUndated(now: DateTime)
    requires IsFormattable(now)
    ensures Parseable("Graticule (REF-001)")
    ensures NameOf("Graticule (REF-001)", now) == ParsedName("Graticule", Some("ref-001"), FormatIso(now))
  {
    PlainWords(["Graticule"]);
    assert IsBare("REF-001") && Lower("REF-001") == "ref-001";
    assert "(" + "REF-001" + ")" == "(REF-001)";
    JoinExtend(["Graticule"], "(REF-001)", "Graticule", "Graticule (REF-001)");
    assert ["Graticule"] + ["(" + "REF-001" + ")"] == ["Graticule"] + ["(REF-001)"];
    SingleExample(["Graticule"], "REF-001", now, "Graticule (REF-001)", "Graticule", "ref-001");
  }

  lemma VirtualMosaicIsNoDate()
    ensures Remove("Virtual", '(') == "Virtual" && Remove("Mosaic", ')') == "Mosaic"
    ensures ParseTimestamp("Virtual", "Mosaic") == None
  {
    assert '-' !in "Virtual";
  }

  /**
   * "Virtual Mosaic" (lines 107-118): the last two words are tried as a date
   * and fail, there is no slug, and the whole text is the title.
   */
  lemma VirtualMosaic(now: DateTime)
    requires IsFormattable(now)
    ensures Parseable("Virtual Mosaic")
    ensures NameOf("Virtual Mosaic", now) == ParsedName("Virtual Mosaic", None, FormatIso(now))
  {
    var ws := ["Virtual", "Mosaic"];
    PlainWords(ws);
    JoinExtend(["Virtual"], "Mosaic", "Virtual", "Virtual Mosaic");
    assert ["Virtual"] + ["Mosaic"] == ws;
    NoSlugTitle(ws, now);
    TokensOfJoin(ws);
    VirtualMosaicIsNoDate();
    assert Tokens("Virtual Mosaic") == ws;
  }

  lemma OverviewRiverDateParts()
    ensures IsFormattable(DateTime(2008, 5, 14, 17, 59, 5))
    ensures DayMonthYear(DateTime(2008, 5, 14, 17, 59, 5)) == "14-05-2008"
  {
  }

  lemma OverviewRiverTimeParts()
    ensures HourMinuteSecond(DateTime(2008, 5, 14, 17, 59, 5)) == "17:59:05"
  {
  }

  lemma OverviewRiverIso()
    ensures FormatIso(DateTime(2008, 5, 14, 17, 59, 5)) == "2008-05-14T17:59:05"
  {
  }

  lemma OverviewRiverBare()
    ensures IsBare("14-05-2008") && IsBare("17:59:05")
    ensures "(" + "14-05-2008" == "(14-05-2008" && "17:59:05" + ")" == "17:59:05)"
  {
  }

  lemma LgateRiverSlug()
    ensures IsBare("LGATE-053") && "(" + "LGATE-053" + ")" == "(LGATE-053)"
    ensures Lower("LGATE-053") == "lgate-053"
  {
  }

  lemma OverviewRiverTokensPlain()
    ensures IsPlainWord("(LGATE-053)") && StripParens("(LGATE-053)") == "LGATE-053"
    ensures IsPlainWord("(14-05-2008") && IsPlainWord("17:59:05)")
  {
    OverviewRiverBare();
    LgateRiverSlug();
    ParenthesizedIsPlain("LGATE-053");
    DateTokens("14-05-2008", "17:59:05");
  }

  lemma PlainFive(a: string, b: string, c: string, d: string, e: string)
    requires IsPlainWord(a) && IsPlainWord(b) && IsPlainWord(c) && IsPlainWord(d) && IsPlainWord(e)
    ensures forall i :: 0 <= i < 5 ==> IsPlainWord([a, b, c, d, e][i])
  {
  }

  lemma OverviewRiverPlain() ensures IsPlainWord("Overview") && IsPlainWord("River") {
    WordWithoutParenIsPlain("Overview");
    WordWithoutParenIsPlain("River");
  }
  lemma OverviewRiverWords()
    ensures forall i :: 0 <= i < 5 ==> IsPlainWord(["Overview", "River", "(LGATE-053)", "(14-05-2008", "17:59:05)"][i])
  {
    OverviewRiverTokensPlain();
    OverviewRiverPlain();
    PlainFive("Overview", "River", "(LGATE-053)", "(14-05-2008", "17:59:05)");
  }

  lemma OverviewRiverTitle()
    ensures Join(["Overview", "River"]) == "Overview River"
  {
    JoinExtend(["Overview"], "River", "Overview", "Overview River");
    assert ["Overview"] + ["River"] == ["Overview", "River"];
  }

  lemma OverviewRiverText3()
    ensures Join(["Overview", "River", "(LGATE-053)"]) == "Overview River (LGATE-053)"
  {
    OverviewRiverTitle();
    JoinExtend(["Overview", "River"], "(LGATE-053)", "Overview River", "Overview River (LGATE-053)");
    assert ["Overview", "River"] + ["(LGATE-053)"] == ["Overview", "River", "(LGATE-053)"];
  }

  lemma OverviewRiverText4()
    ensures Join(["Overview", "River", "(LGATE-053)", "(14-05-2008"]) == "Overview River (LGATE-053) (14-05-2008"
  {
    var l3 := ["Overview", "River", "(LGATE-053)"];
    OverviewRiverText3();
    JoinExtend(l3, "(14-05-2008", "Overview River (LGATE-053)", "Overview River (LGATE-053) (14-05-2008");
    assert l3 + ["(14-05-2008"] == ["Overview", "River", "(LGATE-053)", "(14-05-2008"];
  }

  lemma OverviewRiverText()
    ensures Join(["Overview", "River"]) == "Overview River"
    ensures Join(["Overview", "River", "(LGATE-053)", "(14-05-2008", "17:59:05)"])
         == "Overview River (LGATE-053) (14-05-2008 17:59:05)"
  {
    var l4 := ["Overview", "River", "(LGATE-053)", "(14-05-2008"];
    OverviewRiverTitle();
    OverviewRiverText4();
    JoinExtend(l4, "17:59:05)", "Overview River (LGATE-053) (14-05-2008", "Overview River (LGATE-053) (14-05-2008 17:59:05)");
    assert l4 + ["17:59:05)"] == ["Overview", "River", "(LGATE-053)", "(14-05-2008", "17:59:05)"];
  }

  lemma OverviewRiverTail()
    ensures "LGATE-053) (14-05-2008 17:59:05)" == "LGATE-053)" + " (14-05-2008" + " 17:59:05)"
  {
  }

  lemma OverviewRiverRepaired()
    ensures "Overview River" + " (" + "LGATE-053) (14-05-2008 17:59:05)"
         == "Overview River (LGATE-053) (14-05-2008 17:59:05)"
  {
    OverviewRiverTail();
    OverviewRiverRepairedHead();
    assert "Overview River (LGATE-053)" + " (14-05-2008" + " 17:59:05)" == "Overview River (LGATE-053) (14-05-2008 17:59:05)";
  }

  lemma OverviewRiverRepairedHead()
    ensures "Overview River" + " (" + "LGATE-053)" == "Overview River (LGATE-053)"
  {
  }

  lemma OverviewRiverGlued()
    ensures "Overview River" + ['s'] + "(" + "LGATE-053) (14-05-2008 17:59:05)"
         == "Overview Rivers(LGATE-053) (14-05-2008 17:59:05)"
  {
    OverviewRiverTail();
    OverviewRiverGluedHead();
    assert "Overview Rivers(LGATE-053)" + " (14-05-2008" + " 17:59:05)" == "Overview Rivers(LGATE-053) (14-05-2008 17:59:05)";
  }

  lemma OverviewRiverGluedHead()
    ensures "Overview River" + ['s'] + "(" + "LGATE-053)" == "Overview Rivers(LGATE-053)"
  {
  }

  /** The repair turns "Rivers(" into "River (". */
  lemma OverviewRiverRepair()
    ensures InsertParenSpace("Overview Rivers(LGATE-053) (14-05-2008 17:59:05)")
         == "Overview River (LGATE-053) (14-05-2008 17:59:05)"
  {
    var ws := ["Overview", "River", "(LGATE-053)", "(14-05-2008", "17:59:05)"];
    OverviewRiverWords();
    OverviewRiverText();
    JoinNoLowerBeforeParen(ws);
    OverviewRiverRepaired();
    OverviewRiverGlued();
    RepairGluedParen("Overview River", 's', "LGATE-053) (14-05-2008 17:59:05)");
  }

  lemma OverviewRiverDate()
    ensures ParseTimestamp("14-05-2008", "17:59:05") == Some(DateTime(2008, 5, 14, 17, 59, 5))
  {
    OverviewRiverDateParts();
    OverviewRiverTimeParts();
    ParseTimestampRoundTrip(DateTime(2008, 5, 14, 17, 59, 5));
  }

  /** A text whose repaired form is a join of plain tokens has those tokens. */
  lemma TokensOfRepaired(text: string, ws: seq<string>)
    requires forall i :: 0 <= i < |ws| ==> IsPlainWord(ws[i])
    requires InsertParenSpace(text) == Join(ws)
    ensures Tokens(text) == ws
  {
    WordsOfJoin(ws);
  }

  lemma OverviewRiverTokenList()
    ensures Tokens("Overview Rivers(LGATE-053) (14-05-2008 17:59:05)")
         == ["Overview", "River", "(LGATE-053)", "(14-05-2008", "17:59:05)"]
  {
    OverviewRiverWords();
    OverviewRiverText();
    OverviewRiverRepair();
    TokensOfRepaired("Overview Rivers(LGATE-053) (14-05-2008 17:59:05)",
      ["Overview", "River", "(LGATE-053)", "(14-05-2008", "17:59:05)"]);
  }

  /** `DatedTokens` with every piece given as a literal. */
  lemma DatedTokensExample(text: string, ws: seq<string>, slugToken: string, datePart: string, timePart: string,
                           dateToken: string, timeToken: string,
                           t: DateTime, now: DateTime, title: string, slug: string, published: string)
    requires Tokens(text) == ws + [slugToken, dateToken, timeToken]
    requires dateToken == "(" + datePart && timeToken == timePart + ")"
    requires IsBare(datePart) && IsBare(timePart) && IsFormattable(now)
    requires Join(ws) == title && Lower(StripParens(slugToken)) == slug
    requires ParseTimestamp(datePart, timePart) == Some(t) && FormatIso(t) == published
    ensures Parseable(text) && NameOf(text, now) == ParsedName(title, Some(slug), published)
  {
    DatedTokens(text, ws, slugToken, datePart, timePart, now);
  }

  /** The pieces of the glued example other than its token list. */
  lemma OverviewRiverDatedPieces()
    ensures "(14-05-2008" == "(" + "14-05-2008" && "17:59:05)" == "17:59:05" + ")"
    ensures IsBare("14-05-2008") && IsBare("17:59:05")
    ensures Join(["Overview", "River"]) == "Overview River" && Lower(StripParens("(LGATE-053)")) == "lgate-053"
    ensures ParseTimestamp("14-05-2008", "17:59:05") == Some(DateTime(2008, 5, 14, 17, 59, 5))
    ensures FormatIso(DateTime(2008, 5, 14, 17, 59, 5)) == "2008-05-14T17:59:05"
  {
    OverviewRiverTitle();
    OverviewRiverBare();
    LgateRiverSlug();
    OverviewRiverIso();
    OverviewRiverTokensPlain();
    OverviewRiverDate();
  }

  /** Any text with the glued example's tokens names the same dataset. */
  lemma OverviewRiverFromTokens(text: string, now: DateTime)
    requires Tokens(text) == ["Overview", "River", "(LGATE-053)", "(14-05-2008", "17:59:05)"]
    requires IsFormattable(now)
    ensures Parseable(text) && NameOf(text, now) == ParsedName("Overview River", Some("lgate-053"), "2008-05-14T17:59:05")
  {
    assert ["Overview", "River", "(LGATE-053)", "(14-05-2008", "17:59:05)"]
        == ["Overview", "River"] + ["(LGATE-053)", "(14-05-2008", "17:59:05)"];
    OverviewRiverDatedPieces();
    DatedTokensExample(text, ["Overview", "River"], "(LGATE-053)",
      "14-05-2008", "17:59:05", "(14-05-2008", "17:59:05)", DateTime(2008, 5, 14, 17, 59, 5), now, "Overview River", "lgate-053", "2008-05-14T17:59:05");
  }

  /**
   * "Overview Rivers(LGATE-053) (14-05-2008 17:59:05)" (lines 85-94): the
   * repair eats the letter before `(`, so the title comes out as "Overview River".
   */
  lemma OverviewRiversGlued(now: DateTime)
    requires IsFormattable(now)
    ensures Parseable("Overview Rivers(LGATE-053) (14-05-2008 17:59:05)")
    ensures NameOf("Overview Rivers(LGATE-053) (14-05-2008 17:59:05)", now)
         == ParsedName("Overview River", Some("lgate-053"), "2008-05-14T17:59:05")
  {
    OverviewRiverTokenList();
    OverviewRiverFromTokens("Overview Rivers(LGATE-053) (14-05-2008 17:59:05)", now);
  }
}
