/**
 * The example in the documentation of `bdfExport` in matGroups.py: the sets
 * SET_A = [10,11,12,1,2,3,4,17,18,20] and SET_B = [2,4,...,20], exported as
 * element sets, give exactly the eight documented lines.
 *
 * SET_A has four runs, two of them written as THRU entries.  SET_B has ten
 * isolated labels, one entry each, so its SET card takes a full line of
 * eight entries ending in a comma and a continuation line of two.
 */
module BdfExample {
  import opened Runs
  import opened Tokens
  import opened Decimal
  import opened Bdf

  /** The labels of SET_B ascend and no two of them are adjacent. */
  lemma SetBGaps(labels: seq<int>)
    requires labels == [2, 4, 6, 8, 10, 12, 14, 16, 18, 20]
    ensures Isolated(labels) && StrictlyIncreasing(labels) && Sorted(labels)
  {
    forall k | 0 <= k < |labels| ensures labels[k] == 2 * k + 2 {
    }
  }

  lemma NumsB(labels: seq<int>)
    requires labels == [2, 4, 6, 8, 10, 12, 14, 16, 18, 20]
    ensures Nums(labels) == [Num(2), Num(4), Num(6), Num(8), Num(10), Num(12), Num(14), Num(16), Num(18), Num(20)]
  {
  }

  /** SET_B is already sorted and has no repeats: one entry per label. */
  lemma SetBTokens(labels: seq<int>)
    requires labels == [2, 4, 6, 8, 10, 12, 14, 16, 18, 20]
    ensures SetTokens(labels) == Nums(labels)
  {
    SetBGaps(labels);
    SortSorted(labels);
    DedupNoRepeats(labels);
    IsolatedTokens(labels);
  }

  // How the entries of the example are printed.

  lemma RenderSetA()
    ensures RenderToken(Thru(1, 4)) == "1 THRU 4" && RenderToken(Thru(10, 12)) == "10 THRU 12"
    ensures RenderToken(Num(17)) == "17" && RenderToken(Num(18)) == "18" && RenderToken(Num(20)) == "20"
  {
  }

  lemma RenderSingleDigits()
    ensures RenderToken(Num(2)) == "2" && RenderToken(Num(4)) == "4"
    ensures RenderToken(Num(6)) == "6" && RenderToken(Num(8)) == "8"
  {
  }

  lemma RenderTwoDigits()
    ensures RenderToken(Num(10)) == "10" && RenderToken(Num(12)) == "12"
    ensures RenderToken(Num(14)) == "14" && RenderToken(Num(16)) == "16"
  {
  }

  lemma RenderSetBLast()
    ensures RenderToken(Num(18)) == "18" && RenderToken(Num(20)) == "20"
  {
  }

  lemma JoinPair(t1: Token, t2: Token)
    ensures JoinTokens([t1, t2]) == RenderToken(t1) + "," + RenderToken(t2)
  {
    JoinSnoc([t1, t2]);
    assert [t1, t2][..1] == [t1];
  }

  lemma JoinFour(t1: Token, t2: Token, t3: Token, t4: Token)
    ensures JoinTokens([t1, t2, t3, t4])
         == (RenderToken(t1) + "," + RenderToken(t2)) + "," + (RenderToken(t3) + "," + RenderToken(t4))
  {
    JoinPair(t1, t2);
    JoinPair(t3, t4);
    JoinAppend([t1, t2], [t3, t4]);
    assert [t1, t2] + [t3, t4] == [t1, t2, t3, t4];
  }

  /** The five entries of SET_A fit on one line. */
  lemma SetALine(ts: seq<Token>)
    requires ts == [Thru(1, 4), Thru(10, 12), Num(17), Num(18), Num(20)]
    ensures ChunkLines(ts) == ["1 THRU 4,10 THRU 12,17,18,20"]
  {
    RenderSetA();
    JoinPair(Thru(1, 4), Thru(10, 12));
    JoinPair(Num(17), Num(18));
    JoinAppend([Thru(1, 4), Thru(10, 12)], [Num(17), Num(18)]);
    var four := [Thru(1, 4), Thru(10, 12)] + [Num(17), Num(18)];
    JoinAppend(four, [Num(20)]);
    assert JoinTokens([Num(20)]) == "20";
    assert JoinTokens(four) == "1 THRU 4,10 THRU 12,17,18";
    assert four + [Num(20)] == ts;
    assert JoinTokens(ts) == "1 THRU 4,10 THRU 12,17,18,20";
    assert LineCount(|ts|) == 1;
    assert Chunk(ts, 0) == ts;
    var ls := ChunkLines(ts);
    assert |ls| == 1;
    assert ls[0] == JoinTokens(Chunk(ts, 0)) + "";
    assert ls[0] == "1 THRU 4,10 THRU 12,17,18,20";
    assert ls == [ls[0]];
  }

  lemma JoinEight(t0: Token, t1: Token, t2: Token, t3: Token, t4: Token, t5: Token, t6: Token, t7: Token)
    ensures JoinTokens([t0, t1, t2, t3, t4, t5, t6, t7])
         == ((RenderToken(t0) + "," + RenderToken(t1)) + "," + (RenderToken(t2) + "," + RenderToken(t3)))
            + "," + ((RenderToken(t4) + "," + RenderToken(t5)) + "," + (RenderToken(t6) + "," + RenderToken(t7)))
  {
    JoinFour(t0, t1, t2, t3);
    JoinFour(t4, t5, t6, t7);
    JoinAppend([t0, t1, t2, t3], [t4, t5, t6, t7]);
    assert [t0, t1, t2, t3] + [t4, t5, t6, t7] == [t0, t1, t2, t3, t4, t5, t6, t7];
  }

  lemma SetBFirstLine(ts: seq<Token>)
    requires ts == [Num(2), Num(4), Num(6), Num(8), Num(10), Num(12), Num(14), Num(16)]
    ensures JoinTokens(ts) == "2,4,6,8,10,12,14,16"
  {
    RenderSingleDigits();
    RenderTwoDigits();
    JoinEight(ts[0], ts[1], ts[2], ts[3], ts[4], ts[5], ts[6], ts[7]);
    assert ts == [ts[0], ts[1], ts[2], ts[3], ts[4], ts[5], ts[6], ts[7]];
  }

  /** The ten entries of SET_B: a full line of eight, then two. */
  lemma SetBLines(ts: seq<Token>)
    requires ts == [Num(2), Num(4), Num(6), Num(8), Num(10), Num(12), Num(14), Num(16), Num(18), Num(20)]
    ensures ChunkLines(ts) == ["2,4,6,8,10,12,14,16,", "18,20"]
  {
    SetBFirstLine(ts[..8]);
    RenderSetBLast();
    JoinPair(Num(18), Num(20));
    assert ts[8..] == [Num(18), Num(20)];
    assert LineCount(|ts|) == 2;
    assert Chunk(ts, 0) == ts[..8] && Chunk(ts, 1) == ts[8..];
    var ls := ChunkLines(ts);
    assert |ls| == 2;
    assert ls[0] == JoinTokens(Chunk(ts, 0)) + ",";
    assert ls[1] == JoinTokens(Chunk(ts, 1)) + "";
    assert ls[0] == "2,4,6,8,10,12,14,16,";
    assert ls[1] == "18,20";
    assert ls == [ls[0], ls[1]];
  }

  // The card headers and `$HMSET` lines of the example.

  lemma HeaderA()
    ensures SetHeader(1) == "SET    1 = "
  {
    assert IntToString(1) == "1";
    assert Spaces(4) == "    ";
  }

  lemma HeaderB()
    ensures SetHeader(2) == "SET    2 = "
  {
    assert IntToString(2) == "2";
    assert Spaces(4) == "    ";
  }

  lemma HmSetA()
    ensures HmSetLine(1, ElementSetType, "SET_A") == "$HMSET        1        2 \"SET_A\""
  {
    HmSetDigits(1, ElementSetType, "SET_A", "       1", "       2");
  }

  lemma HmSetB()
    ensures HmSetLine(2, ElementSetType, "SET_B") == "$HMSET        2        2 \"SET_B\""
  {
    HmSetDigits(2, ElementSetType, "SET_B", "       2", "       2");
  }

  /** The `$HMSET` line of a set whose number and type are single digits. */
  lemma HmSetDigits(id: int, setType: int, name: string, idText: string, typeText: string)
    requires 0 <= id < 10 && 0 <= setType < 10
    requires idText == "       " + [DigitChar(id)] && typeText == "       " + [DigitChar(setType)]
    ensures HmSetLine(id, setType, name) == "$HMSET " + idText + " " + typeText + " \"" + name + "\""
  {
    FormatDigit(id, idText);
    FormatDigit(setType, typeText);
  }

  /** `'%8d' % n` for a single digit n: seven spaces, then the digit. */
  lemma FormatDigit(n: int, text: string)
    requires 0 <= n < 10 && text == "       " + [DigitChar(n)]
    ensures FormatInt(n, 8) == text
  {
    assert IntToString(n) == [DigitChar(n)];
    assert Spaces(7) == "       ";
  }

  /** The lines of a set, from its entry lines, header and `$HMSET` line. */
  lemma SetBlockOf(id: int, name: string, labels: seq<int>, setType: int,
                   lines: seq<string>, header: string, hm: string)
    requires ChunkLines(SetTokens(labels)) == lines && lines != []
    requires SetHeader(id) == header && HmSetLine(id, setType, name) == hm
    ensures SetBlock(id, name, labels, setType) == [header + lines[0]] + lines[1..] + [hm]
  {
  }

  lemma LayoutA(header: string, lines: seq<string>, hm: string)
    requires header == "SET    1 = " && lines == ["1 THRU 4,10 THRU 12,17,18,20"]
    requires hm == "$HMSET        1        2 \"SET_A\""
    ensures [header + lines[0]] + lines[1..] + [hm]
         == ["SET    1 = 1 THRU 4,10 THRU 12,17,18,20", "$HMSET        1        2 \"SET_A\""]
  {
    assert lines[1..] == [];
    assert header + lines[0] == "SET    1 = 1 THRU 4,10 THRU 12,17,18,20";
  }

  lemma LayoutB(header: string, lines: seq<string>, hm: string)
    requires header == "SET    2 = " && lines == ["2,4,6,8,10,12,14,16,", "18,20"]
    requires hm == "$HMSET        2        2 \"SET_B\""
    ensures [header + lines[0]] + lines[1..] + [hm]
         == ["SET    2 = 2,4,6,8,10,12,14,16,", "18,20", "$HMSET        2        2 \"SET_B\""]
  {
    assert lines[1..] == ["18,20"];
    assert header + lines[0] == "SET    2 = 2,4,6,8,10,12,14,16,";
  }

  /** The lines written for SET_A. */
  lemma SetABlock(labels: seq<int>)
    requires labels == [10, 11, 12, 1, 2, 3, 4, 17, 18, 20]
    ensures SetBlock(1, "SET_A", labels, ElementSetType)
         == ["SET    1 = 1 THRU 4,10 THRU 12,17,18,20", "$HMSET        1        2 \"SET_A\""]
  {
    HmRangesExample(labels);
    SetABlockOf(labels);
  }

  lemma SetABlockOf(labels: seq<int>)
    requires SetTokens(labels) == [Thru(1, 4), Thru(10, 12), Num(17), Num(18), Num(20)]
    ensures SetBlock(1, "SET_A", labels, ElementSetType)
         == ["SET    1 = 1 THRU 4,10 THRU 12,17,18,20", "$HMSET        1        2 \"SET_A\""]
  {
    SetALine(SetTokens(labels));
    HeaderA();
    HmSetA();
    var header, lines, hm := "SET    1 = ", ["1 THRU 4,10 THRU 12,17,18,20"], "$HMSET        1        2 \"SET_A\"";
    SetBlockOf(1, "SET_A", labels, ElementSetType, lines, header, hm);
    LayoutA(header, lines, hm);
  }

  /** The lines written for SET_B. */
  lemma SetBBlock(labels: seq<int>)
    requires labels == [2, 4, 6, 8, 10, 12, 14, 16, 18, 20]
    ensures SetBlock(2, "SET_B", labels, ElementSetType)
         == ["SET    2 = 2,4,6,8,10,12,14,16,", "18,20", "$HMSET        2        2 \"SET_B\""]
  {
    SetBTokens(labels);
    NumsB(labels);
    SetBBlockOf(labels);
  }

  lemma SetBBlockOf(labels: seq<int>)
    requires SetTokens(labels) == [Num(2), Num(4), Num(6), Num(8), Num(10), Num(12), Num(14), Num(16), Num(18), Num(20)]
    ensures SetBlock(2, "SET_B", labels, ElementSetType)
         == ["SET    2 = 2,4,6,8,10,12,14,16,", "18,20", "$HMSET        2        2 \"SET_B\""]
  {
    SetBLines(SetTokens(labels));
    HeaderB();
    HmSetB();
    var header, lines, hm := "SET    2 = ", ["2,4,6,8,10,12,14,16,", "18,20"], "$HMSET        2        2 \"SET_B\"";
    SetBlockOf(2, "SET_B", labels, ElementSetType, lines, header, hm);
    LayoutB(header, lines, hm);
  }

  lemma SetBlocksOne(entries: seq<(string, seq<int>)>, setType: int)
    requires |entries| == 1
    ensures SetBlocks(entries, setType) == SetBlock(1, entries[0].0, entries[0].1, setType)
  {
    assert entries[..0] == [];
  }

  lemma SetBlocksTwo(entries: seq<(string, seq<int>)>, setType: int)
    requires |entries| == 2
    ensures SetBlocks(entries, setType)
         == SetBlock(1, entries[0].0, entries[0].1, setType) + SetBlock(2, entries[1].0, entries[1].1, setType)
  {
    var first := entries[..1];
    SetBlocksOne(first, setType);
    assert first[0] == entries[0];
    assert entries[..|entries| - 1] == first;
  }

  lemma FileLayout(a: seq<string>, b: seq<string>)
    requires a == ["SET    1 = 1 THRU 4,10 THRU 12,17,18,20", "$HMSET        1        2 \"SET_A\""]
    requires b == ["SET    2 = 2,4,6,8,10,12,14,16,", "18,20", "$HMSET        2        2 \"SET_B\""]
    ensures ["CEND"] + (a + b) + ["BEGIN BULK", "ENDDATA"] == ExampleLines()
  {
  }

  /** The lines the `bdfExport` documentation example prints. */
  function ExampleLines(): seq<string> {
    [ "CEND",
      "SET    1 = 1 THRU 4,10 THRU 12,17,18,20",
      "$HMSET        1        2 \"SET_A\"",
      "SET    2 = 2,4,6,8,10,12,14,16,",
      "18,20",
      "$HMSET        2        2 \"SET_B\"",
      "BEGIN BULK",
      "ENDDATA" ]
  }

  /** The items in `sorted` order: "SET_A" < "SET_B". */
  lemma NamesExample(setDict: seq<(string, seq<int>)>)
    requires setDict == [("SET_A", [10, 11, 12, 1, 2, 3, 4, 17, 18, 20]), ("SET_B", [2, 4, 6, 8, 10, 12, 14, 16, 18, 20])]
    ensures NamesAscending(setDict)
  {
    assert NameLess("SET_A", "SET_B");
  }

  /** The lines of the whole example file. */
  lemma BdfExportExample(setDict: seq<(string, seq<int>)>)
    requires setDict == [("SET_A", [10, 11, 12, 1, 2, 3, 4, 17, 18, 20]), ("SET_B", [2, 4, 6, 8, 10, 12, 14, 16, 18, 20])]
    ensures NamesAscending(setDict)
    ensures BdfLines(setDict, ElementSetType) == ExampleLines()
  {
    NamesExample(setDict);
    SetBlocksTwo(setDict, ElementSetType);
    SetABlock(setDict[0].1);
    SetBBlock(setDict[1].1);
    FileLayout(SetBlock(1, setDict[0].0, setDict[0].1, ElementSetType), SetBlock(2, setDict[1].0, setDict[1].1, ElementSetType));
  }

  /** The text the `bdfExport` documentation example prints, line by line. */
  function ExampleText(): string {
    "CEND" + "\n"
    + "SET    1 = 1 THRU 4,10 THRU 12,17,18,20" + "\n"
    + "$HMSET        1        2 \"SET_A\"" + "\n"
    + "SET    2 = 2,4,6,8,10,12,14,16," + "\n"
    + "18,20" + "\n"
    + "$HMSET        2        2 \"SET_B\"" + "\n"
    + "BEGIN BULK" + "\n"
    + "ENDDATA" + "\n"
  }

  lemma ExampleLinesText()
    ensures Unlines(ExampleLines()) == ExampleText()
  {
    UnlinesEight("CEND", "SET    1 = 1 THRU 4,10 THRU 12,17,18,20", "$HMSET        1        2 \"SET_A\"",
                 "SET    2 = 2,4,6,8,10,12,14,16,", "18,20", "$HMSET        2        2 \"SET_B\"",
                 "BEGIN BULK", "ENDDATA");
  }

  lemma UnlinesEight(a: string, b: string, c: string, d: string, e: string, f: string, g: string, h: string)
    ensures Unlines([a, b, c, d, e, f, g, h])
         == a + "\n" + b + "\n" + c + "\n" + d + "\n" + e + "\n" + f + "\n" + g + "\n" + h + "\n"
  {
    UnlinesFour(a, b, c, d);
    UnlinesFour(e, f, g, h);
    UnlinesAppend([a, b, c, d], [e, f, g, h]);
    assert [a, b, c, d] + [e, f, g, h] == [a, b, c, d, e, f, g, h];
  }

  lemma UnlinesFour(a: string, b: string, c: string, d: string)
    ensures Unlines([a, b, c, d]) == a + "\n" + b + "\n" + c + "\n" + d + "\n"
  {
    assert [a, b, c, d][..3] == [a, b, c] && [a, b, c][..2] == [a, b] && [a, b][..1] == [a] && [a][..0] == [];
    UnlinesOne(a);
    assert Unlines([a, b]) == Unlines([a]) + b + "\n";
    assert Unlines([a, b]) == a + "\n" + b + "\n";
    assert Unlines([a, b, c]) == Unlines([a, b]) + c + "\n";
    assert Unlines([a, b, c, d]) == Unlines([a, b, c]) + d + "\n";
    assert Unlines([a, b, c]) == a + "\n" + b + "\n" + c + "\n";
  }

  /**
   * The `bdfExport` documentation example: exporting SET_A and SET_B as
   * element sets to an empty file writes exactly the documented text.
   */
  method ExportExample() returns (text: string)
    ensures text == ExampleText()
  {
    var bdf := new TextFile();
    var setDict := [("SET_A", [10, 11, 12, 1, 2, 3, 4, 17, 18, 20]), ("SET_B", [2, 4, 6, 8, 10, 12, 14, 16, 18, 20])];
    BdfExportExample(setDict);
    BdfExport(bdf, setDict);
    ExampleLinesText();
    text := bdf.text;
  }
}
