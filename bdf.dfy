/**
 * `bdfExport` in matGroups.py: the Hypermesh `.bdf` file of SET cards.
 *
 * The file is a `CEND` line, then for each set (in ascending name order,
 * numbered from 1) a `SET n = ...` card whose entries are written eight per
 * line, continuation lines ending in a comma, followed by a `$HMSET` line
 * with the set's number, type and quoted name; then `BEGIN BULK` and
 * `ENDDATA`.
 */
module Bdf {
  import opened Runs
  import opened Tokens
  import opened Decimal

  /** Entries per line of a SET card (`chunkSize`). */
  const ChunkSize: nat := 8

  /** `setType` 2: element sets, the default (1 would mark node sets). */
  const ElementSetType := 2

  /** An open output file, seen as the text written to it so far. */
  class TextFile {
    var text: string

    constructor ()
      ensures text == ""
    {
      text := "";
    }

    /** `print(..., file=bdf)`: append `s`, its line ending included. */
    method Write(s: string)
      modifies this
      ensures text == old(text) + s
    {
      text := text + s;
    }
  }

  // ---------------------------------------------------------------------
  // The file format, line by line.
  // ---------------------------------------------------------------------

  /** How `print` writes one entry: a number, or "lo THRU hi". */
  function RenderToken(t: Token): string
  {
    match t
    case Num(n) => IntToString(n)
    case Thru(lo, hi) => IntToString(lo) + " THRU " + IntToString(hi)
  }

  /** A printed entry is non-empty, starts with a sign or a digit and ends with a digit. */
  lemma RenderTokenShape(t: Token)
    ensures var s := RenderToken(t);
      |s| > 0 && (s[0] == '-' || IsDigit(s[0])) && IsDigit(s[|s| - 1])
  {
    match t
    case Num(n) =>
      IntToStringNumeral(n);
    case Thru(lo, hi) =>
      IntToStringNumeral(lo);
      IntToStringNumeral(hi);
      var b := IntToString(hi);
      assert b[|b| - 1] == (if b[0] == '-' then b[1..] else b)[|b| - 1 - (if b[0] == '-' then 1 else 0)];
  }

  /** `print(*ts, sep=',')` without its line ending. */
  function JoinTokens(ts: seq<Token>): string
  {
    if ts == [] then ""
    else if |ts| == 1 then RenderToken(ts[0])
    else JoinTokens(ts[..|ts| - 1]) + "," + RenderToken(ts[|ts| - 1])
  }

  /**
   * The entries printed with commas between them are empty exactly when
   * there are no entries, and otherwise start with a sign or a digit and end
   * with a digit.
   */
  lemma {:induction false} JoinTokensShape(ts: seq<Token>)
    ensures var s := JoinTokens(ts);
      && (ts == [] <==> s == [])
      && (ts != [] ==> (s[0] == '-' || IsDigit(s[0])) && IsDigit(s[|s| - 1]))
  {
    if |ts| == 1 {
      RenderTokenShape(ts[0]);
    } else if |ts| > 1 {
      JoinTokensShape(ts[..|ts| - 1]);
      RenderTokenShape(ts[|ts| - 1]);
    }
  }

  /** The last entry of a list of two or more follows a comma. */
  lemma JoinSnoc(ts: seq<Token>)
    requires |ts| >= 2
    ensures JoinTokens(ts) == JoinTokens(ts[..|ts| - 1]) + "," + RenderToken(ts[|ts| - 1])
  {
  }

  /** Joining two non-empty entry lists with a comma between them. */
  lemma {:induction false} JoinAppend(a: seq<Token>, b: seq<Token>)
    requires a != [] && b != []
    ensures JoinTokens(a + b) == JoinTokens(a) + "," + JoinTokens(b)
    decreases |b|
  {
    var ab := a + b;
    var z := RenderToken(b[|b| - 1]);
    assert ab[|ab| - 1] == b[|b| - 1];
    JoinSnoc(ab);
    if |b| > 1 {
      var c := b[..|b| - 1];
      assert ab[..|ab| - 1] == a + c;
      JoinAppend(a, c);
      JoinSnoc(b);
      Assoc(JoinTokens(a) + ",", JoinTokens(c), ",");
      Assoc(JoinTokens(a) + ",", JoinTokens(c) + ",", z);
    } else {
      assert ab[..|ab| - 1] == a;
    }
  }

  /** The number of lines the entries of one SET card take: at least one. */
  function LineCount(n: nat): (k: nat)
    ensures k >= 1
    ensures ChunkSize * (k - 1) <= n <= ChunkSize * k
    ensures n > 0 ==> ChunkSize * (k - 1) < n
  {
    if n <= ChunkSize then 1 else 1 + LineCount(n - ChunkSize)
  }

  /**
   * The entries on line j: `hmList[i:i + chunkSize]` on a line ending in a
   * comma, `hmList[i:]` on the last line.
   */
  function Chunk(ts: seq<Token>, j: nat): seq<Token>
    requires j < LineCount(|ts|)
  {
    if j == LineCount(|ts|) - 1 then ts[ChunkSize * j..]
    else ts[ChunkSize * j..ChunkSize * j + ChunkSize]
  }

  /** The entries of one SET card, line by line. */
  function Chunks(ts: seq<Token>): seq<seq<Token>>
  {
    seq(LineCount(|ts|), j requires 0 <= j < LineCount(|ts|) => Chunk(ts, j))
  }

  function Flatten(cs: seq<seq<Token>>): seq<Token>
  {
    if cs == [] then [] else cs[0] + Flatten(cs[1..])
  }

  /** The text of the entry lines: every line but the last ends with a comma. */
  function ChunkLines(ts: seq<Token>): seq<string>
  {
    seq(LineCount(|ts|), j requires 0 <= j < LineCount(|ts|) =>
      JoinTokens(Chunk(ts, j)) + (if j < LineCount(|ts|) - 1 then "," else ""))
  }

  /** `'SET%5d = ' % matId`. */
  function SetHeader(id: int): string {
    "SET" + FormatInt(id, 5) + " = "
  }

  /** `'$HMSET %8d %8d "%s"' % (matId, setType, matName)`. */
  function HmSetLine(id: int, setType: int, name: string): string {
    "$HMSET " + FormatInt(id, 8) + " " + FormatInt(setType, 8) + " \"" + name + "\""
  }

  /** The SET header is `SET`, a 5-wide field holding the set's number, then ` = `. */
  lemma SetHeaderFields(id: int)
    ensures exists f :: IntField(f, id, 5) && SetHeader(id) == "SET" + f + " = "
  {
    FormatIntSpec(id, 5);
  }

  /**
   * The `$HMSET` line is `$HMSET `, an 8-wide field holding the set's number,
   * a space, an 8-wide field holding the set type, then the name in quotes.
   */
  lemma HmSetLineFields(id: int, setType: int, name: string)
    ensures exists f, g ::
      (IntField(f, id, 8) && IntField(g, setType, 8)
       && HmSetLine(id, setType, name) == "$HMSET " + f + " " + g + " \"" + name + "\"")
  {
    var f, g := FormatInt(id, 8), FormatInt(setType, 8);
    FormatIntSpec(id, 8);
    FormatIntSpec(setType, 8);
    assert HmSetLine(id, setType, name) == "$HMSET " + f + " " + g + " \"" + name + "\"";
  }

  /** The entries of a set: `hmRanges(elems)`. */
  function SetTokens(labels: seq<int>): seq<Token> {
    HmTokens(RunsOf(Sort(Dedup(labels))))
  }

  /**
   * On labels without repeats, the entries of a set are those the source's
   * `hmRanges` writes from the pairs of `ranges` as written.
   */
  lemma SetTokensAsWritten(labels: seq<int>)
    requires Distinct(labels)
    ensures SetTokens(labels) == HmTokens(RunsFrom(Sort(labels), 0))
  {
    SortSpec(labels);
    DedupNoRepeats(labels);
    RangesGreedy(labels);
  }

  /** On `[1, 3, 3, 3, 4]` the source writes the single entry `1 THRU 4`; the set's entries differ. */
  lemma SetTokensRepeatedLabels(labels: seq<int>)
    requires labels == [1, 3, 3, 3, 4]
    ensures HmTokens(RunsFrom(Sort(labels), 0)) == [Thru(1, 4)]
    ensures SetTokens(labels) != [Thru(1, 4)]
  {
    RangesRepeatedLabels(labels);
    HmTokensSnoc([], Run(1, 4));
    assert [] + [Run(1, 4)] == [Run(1, 4)];
    SetEntriesRoundTrip(labels);
    ChunksFlatten(SetTokens(labels));
    assert 2 !in ExpandTokens(SetTokens(labels));
    assert ExpandTokens([Thru(1, 4)]) == Interval(1, 4) by {
      assert [Thru(1, 4)][..0] == [];
    }
    assert 2 in Interval(1, 4);
  }

  /** The lines written for set number `id`. */
  function SetBlock(id: int, name: string, labels: seq<int>, setType: int): seq<string>
  {
    var body := ChunkLines(SetTokens(labels));
    [SetHeader(id) + body[0]] + body[1..] + [HmSetLine(id, setType, name)]
  }

  /** The lines of all sets, numbered 1, 2, ... in the order given. */
  function SetBlocks(entries: seq<(string, seq<int>)>, setType: int): seq<string>
  {
    if entries == [] then []
    else
      var n := |entries|;
      SetBlocks(entries[..n - 1], setType) + SetBlock(n, entries[n - 1].0, entries[n - 1].1, setType)
  }

  /** The lines of the whole `.bdf` file. */
  function BdfLines(entries: seq<(string, seq<int>)>, setType: int): seq<string>
  {
    ["CEND"] + SetBlocks(entries, setType) + ["BEGIN BULK", "ENDDATA"]
  }

  /** The text of a list of lines, each ended by a newline. */
  function Unlines(ls: seq<string>): string
  {
    if ls == [] then "" else Unlines(ls[..|ls| - 1]) + ls[|ls| - 1] + "\n"
  }

  /** Python's `<` on strings: lexicographic by code point. */
  predicate NameLess(a: string, b: string) {
    if a == [] then b != []
    else b != [] && (a[0] < b[0] || (a[0] == b[0] && NameLess(a[1..], b[1..])))
  }

  /** The dictionary items in the order `sorted(setDict.items())` gives them. */
  predicate NamesAscending(entries: seq<(string, seq<int>)>) {
    forall i, j :: 0 <= i < j < |entries| ==> NameLess(entries[i].0, entries[j].0)
  }

  // ---------------------------------------------------------------------
  // Chunking.
  // ---------------------------------------------------------------------

  lemma {:induction false} FlattenFrom(ts: seq<Token>, j: nat)
    requires j <= LineCount(|ts|)
    ensures Flatten(Chunks(ts)[j..]) == (if j < LineCount(|ts|) then ts[ChunkSize * j..] else [])
    decreases LineCount(|ts|) - j
  {
    var cs := Chunks(ts);
    if j < LineCount(|ts|) {
      FlattenFrom(ts, j + 1);
      assert cs[j..][1..] == cs[j + 1..];
      if j + 1 < LineCount(|ts|) {
        assert ts[ChunkSize * j..] == Chunk(ts, j) + ts[ChunkSize * (j + 1)..];
      } else {
        assert Chunk(ts, j) + [] == ts[ChunkSize * j..];
      }
    }
  }

  /** The entries of a line ending in a comma: `hmList[i:i + chunkSize]`. */
  lemma ChunkInner(ts: seq<Token>, j: nat, i: int)
    requires i == ChunkSize * j && i + ChunkSize < |ts|
    ensures j < LineCount(|ts|) - 1
    ensures Chunk(ts, j) == ts[i..i + ChunkSize]
    ensures ChunkLines(ts)[j] + "\n" == JoinTokens(ts[i..i + ChunkSize]) + ",\n"
  {
    ChunkLineEnd(ts, j);
  }

  /** The entries of the last line: `hmList[i:]`. */
  lemma ChunkLast(ts: seq<Token>, j: nat, i: int)
    requires i == ChunkSize * j
    requires j == 0 || i < |ts|
    requires |ts| <= i + ChunkSize
    ensures j == LineCount(|ts|) - 1
    ensures Chunk(ts, j) == ts[i..]
    ensures ChunkLines(ts)[j] + "\n" == JoinTokens(ts[i..]) + "\n"
  {
    ChunkLineEnd(ts, j);
  }

  /** Concatenating the lines' entries, in order, gives back all the entries. */
  lemma ChunksFlatten(ts: seq<Token>)
    ensures Flatten(Chunks(ts)) == ts
  {
    FlattenFrom(ts, 0);
    assert Chunks(ts)[0..] == Chunks(ts);
  }

  /**
   * Every line but the last carries exactly `ChunkSize` entries and ends with
   * a comma; the last carries the remaining 1 to `ChunkSize` entries and ends
   * with a digit, or is the empty line of an empty set.
   */
  lemma SetBodyLines(ts: seq<Token>)
    ensures |ChunkLines(ts)| == |Chunks(ts)| == LineCount(|ts|)
    ensures forall j :: 0 <= j < LineCount(|ts|) - 1 ==>
      |Chunk(ts, j)| == ChunkSize && ChunkLines(ts)[j] == JoinTokens(Chunk(ts, j)) + ","
    ensures ChunkLines(ts)[LineCount(|ts|) - 1] == JoinTokens(Chunk(ts, LineCount(|ts|) - 1))
    ensures ts == [] ==> ChunkLines(ts) == [""]
    ensures ts != [] ==> 1 <= |Chunk(ts, LineCount(|ts|) - 1)| <= ChunkSize
    ensures ts != [] ==> EndsWithDigit(ChunkLines(ts)[LineCount(|ts|) - 1])
  {
    var n := LineCount(|ts|) - 1;
    forall j | 0 <= j < n
      ensures |Chunk(ts, j)| == ChunkSize && ChunkLines(ts)[j] == JoinTokens(Chunk(ts, j)) + ","
    {
      ChunkLineAt(ts, j);
    }
    ChunkLineAt(ts, n);
    if ts == [] {
      assert ChunkLines(ts) == [JoinTokens(Chunk(ts, 0)) + ""];
    } else {
      LastChunkLine(ts, n, ChunkLines(ts)[n]);
    }
  }

  /** The last line of a non-empty set's entries holds 1 to 8 entries and ends with a digit. */
  lemma LastChunkLine(ts: seq<Token>, n: nat, last: string)
    requires ts != [] && n == LineCount(|ts|) - 1
    requires last == JoinTokens(Chunk(ts, n))
    ensures 1 <= |Chunk(ts, n)| <= ChunkSize && EndsWithDigit(last)
  {
    JoinTokensShape(Chunk(ts, n));
  }

  /** The line is not empty and its last character is a decimal digit. */
  predicate EndsWithDigit(line: string) {
    |line| > 0 && IsDigit(line[|line| - 1])
  }

  // ---------------------------------------------------------------------
  // Text of line lists.
  // ---------------------------------------------------------------------

  lemma {:induction false} UnlinesAppend(a: seq<string>, b: seq<string>)
    ensures Unlines(a + b) == Unlines(a) + Unlines(b)
  {
    if b == [] {
      assert a + b == a;
    } else {
      var n := |b| - 1;
      var init, line := b[..n], b[n];
      assert (a + b)[..|a + b| - 1] == a + init;
      calc {
        Unlines(a + b);
      ==
        Unlines(a + init) + line + "\n";
      == { UnlinesAppend(a, init); }
        (Unlines(a) + Unlines(init)) + (line + "\n");
      == { Assoc(Unlines(a), Unlines(init), line + "\n"); }
        Unlines(a) + (Unlines(init) + line + "\n");
      ==
        Unlines(a) + Unlines(b);
      }
    }
  }

  lemma UnlinesHead(h: string, ls: seq<string>)
    requires ls != []
    ensures Unlines([h + ls[0]] + ls[1..]) == h + Unlines(ls)
  {
    var first, rest := ls[0], ls[1..];
    calc {
      Unlines([h + first] + rest);
    == { UnlinesAppend([h + first], rest); }
      Unlines([h + first]) + Unlines(rest);
    == { UnlinesOne(h + first); }
      (h + first + "\n") + Unlines(rest);
    == { Assoc(h, first + "\n", Unlines(rest)); }
      h + ((first + "\n") + Unlines(rest));
    == { UnlinesOne(first); }
      h + (Unlines([first]) + Unlines(rest));
    == { UnlinesAppend([first], rest); assert [first] + rest == ls; }
      h + Unlines(ls);
    }
  }

  lemma UnlinesPrefix(ls: seq<string>, j: nat)
    requires j < |ls|
    ensures Unlines(ls[..j + 1]) == Unlines(ls[..j]) + ls[j] + "\n"
  {
    assert ls[..j + 1][..j] == ls[..j];
  }

  lemma UnlinesOne(line: string)
    ensures Unlines([line]) == line + "\n"
  {
    assert [line][..0] == [];
  }

  /** Line j of a SET card: its entries, then a comma unless it is the last line. */
  lemma ChunkLineAt(ts: seq<Token>, j: nat)
    requires j < LineCount(|ts|)
    ensures ChunkLines(ts)[j] == JoinTokens(Chunk(ts, j)) + (if j < LineCount(|ts|) - 1 then "," else "")
  {
  }

  /** Line j of a SET card's entries, with its line ending. */
  lemma ChunkLineEnd(ts: seq<Token>, j: nat)
    requires j < LineCount(|ts|)
    ensures ChunkLines(ts)[j] + "\n"
         == JoinTokens(Chunk(ts, j)) + (if j < LineCount(|ts|) - 1 then ",\n" else "\n")
  {
    ChunkLineAt(ts, j);
    LineEnd(ChunkLines(ts)[j], JoinTokens(Chunk(ts, j)), j < LineCount(|ts|) - 1);
  }

  /** A line with an optional trailing comma, then its newline. */
  lemma LineEnd(text: string, line: string, more: bool)
    requires text == line + (if more then "," else "")
    ensures text + "\n" == line + (if more then ",\n" else "\n")
  {
    if more {
      Assoc(line, ",", "\n");
    } else {
      assert text == line;
    }
  }

  /** Writing line j after the first j lines gives the first j + 1 lines. */
  lemma UnlinesStep(prefix: string, ls: seq<string>, j: nat, out: string)
    requires j < |ls| && out == ls[j] + "\n"
    ensures (prefix + Unlines(ls[..j])) + out == prefix + Unlines(ls[..j + 1])
  {
    UnlinesPrefix(ls, j);
  }

  /** The text of one set's lines: header, entry lines, `$HMSET` line. */
  lemma SetBlockText(id: int, name: string, labels: seq<int>, setType: int)
    ensures Unlines(SetBlock(id, name, labels, setType))
         == (SetHeader(id) + Unlines(ChunkLines(SetTokens(labels))))
            + (HmSetLine(id, setType, name) + "\n")
  {
    var body := ChunkLines(SetTokens(labels));
    var hm := HmSetLine(id, setType, name);
    var first := [SetHeader(id) + body[0]] + body[1..];
    assert SetBlock(id, name, labels, setType) == first + [hm];
    UnlinesHead(SetHeader(id), body);
    UnlinesAppend(first, [hm]);
    UnlinesOne(hm);
  }

  lemma FrameText(head: string, blocks: seq<string>, t1: string, t2: string)
    ensures Unlines([head] + blocks + [t1, t2])
         == ((head + "\n") + Unlines(blocks)) + ((t1 + "\n") + (t2 + "\n"))
  {
    UnlinesAppend([head] + blocks, [t1, t2]);
    UnlinesAppend([head], blocks);
    UnlinesOne(head);
    assert [t1] + [t2] == [t1, t2];
    UnlinesAppend([t1], [t2]);
    UnlinesOne(t1);
    UnlinesOne(t2);
  }

  /** The text of the whole file: `CEND`, the sets, `BEGIN BULK`, `ENDDATA`. */
  lemma BdfText(entries: seq<(string, seq<int>)>, setType: int)
    ensures Unlines(BdfLines(entries, setType))
         == ("CEND\n" + Unlines(SetBlocks(entries, setType))) + ("BEGIN BULK\n" + "ENDDATA\n")
  {
    FrameText("CEND", SetBlocks(entries, setType), "BEGIN BULK", "ENDDATA");
    assert "CEND" + "\n" == "CEND\n";
    assert "BEGIN BULK" + "\n" == "BEGIN BULK\n";
    assert "ENDDATA" + "\n" == "ENDDATA\n";
  }

  lemma SetBlocksSnoc(entries: seq<(string, seq<int>)>, k: nat, setType: int)
    requires k < |entries|
    ensures Unlines(SetBlocks(entries[..k + 1], setType))
         == Unlines(SetBlocks(entries[..k], setType))
            + Unlines(SetBlock(k + 1, entries[k].0, entries[k].1, setType))
  {
    assert entries[..k + 1][..k] == entries[..k];
    UnlinesAppend(SetBlocks(entries[..k], setType), SetBlock(k + 1, entries[k].0, entries[k].1, setType));
  }

  // ---------------------------------------------------------------------
  // The cards of the file.
  // ---------------------------------------------------------------------

  /** The lines whose first character is `c`, in order. */
  function LinesStartingWith(ls: seq<string>, c: char): (r: seq<string>)
    ensures |r| <= |ls|
  {
    if ls == [] then []
    else
      var n := |ls| - 1;
      LinesStartingWith(ls[..n], c) + (if |ls[n]| > 0 && ls[n][0] == c then [ls[n]] else [])
  }

  lemma {:induction false} LinesStartingWithAppend(a: seq<string>, b: seq<string>, c: char)
    ensures LinesStartingWith(a + b, c) == LinesStartingWith(a, c) + LinesStartingWith(b, c)
  {
    if b == [] {
      assert a + b == a;
    } else {
      var n := |b| - 1;
      var init, line := b[..n], b[n];
      var keep := if |line| > 0 && line[0] == c then [line] else [];
      assert (a + b)[..|a + b| - 1] == a + init;
      calc {
        LinesStartingWith(a + b, c);
      ==
        LinesStartingWith(a + init, c) + keep;
      == { LinesStartingWithAppend(a, init, c); }
        (LinesStartingWith(a, c) + LinesStartingWith(init, c)) + keep;
      == { Assoc(LinesStartingWith(a, c), LinesStartingWith(init, c), keep); }
        LinesStartingWith(a, c) + (LinesStartingWith(init, c) + keep);
      ==
        LinesStartingWith(a, c) + LinesStartingWith(b, c);
      }
    }
  }

  lemma {:induction false} LinesStartingWithNone(ls: seq<string>, c: char)
    requires forall k :: 0 <= k < |ls| ==> |ls[k]| == 0 || ls[k][0] != c
    ensures LinesStartingWith(ls, c) == []
  {
    if ls != [] {
      LinesStartingWithNone(ls[..|ls| - 1], c);
    }
  }

  lemma LinesStartingWithOne(line: string, c: char)
    ensures LinesStartingWith([line], c) == if |line| > 0 && line[0] == c then [line] else []
  {
    assert [line][..0] == [];
  }

  /** Filtering a block of lines whose middle lines never start with `c`. */
  lemma LinesStartingWithBlock(head: string, rest: seq<string>, last: string, c: char)
    requires forall k :: 0 <= k < |rest| ==> |rest[k]| == 0 || rest[k][0] != c
    ensures LinesStartingWith([head] + rest + [last], c)
         == LinesStartingWith([head], c) + LinesStartingWith([last], c)
  {
    LinesStartingWithNone(rest, c);
    LinesStartingWithAppend([head] + rest, [last], c);
    LinesStartingWithAppend([head], rest, c);
  }

  predicate StartsWith(line: string, prefix: string) {
    |prefix| <= |line| && line[..|prefix|] == prefix
  }

  /** Continuation lines of a SET card start with an entry: a sign or a digit. */
  lemma ContinuationLine(ts: seq<Token>, j: nat)
    requires 1 <= j < LineCount(|ts|)
    ensures |ChunkLines(ts)[j]| > 0
    ensures ChunkLines(ts)[j][0] == '-' || IsDigit(ChunkLines(ts)[j][0])
  {
    var line := JoinTokens(Chunk(ts, j));
    assert Chunk(ts, j) != [];
    JoinTokensShape(Chunk(ts, j));
    ChunkLineAt(ts, j);
  }

  lemma ContinuationLines(ts: seq<Token>, rest: seq<string>, c: char)
    requires rest == ChunkLines(ts)[1..]
    requires c == '$' || c == 'S'
    ensures forall k :: 0 <= k < |rest| ==> |rest[k]| == 0 || rest[k][0] != c
  {
    var ls := ChunkLines(ts);
    assert |rest| == LineCount(|ts|) - 1;
    forall k | 0 <= k < |rest|
      ensures |rest[k]| == 0 || rest[k][0] != c
    {
      assert rest[k] == ls[k + 1];
      ContinuationLine(ts, k + 1);
    }
  }

  /**
   * Within the lines of one set, the SET card's first line is the only line
   * starting with `S` and the `$HMSET` line the only one starting with `$`.
   */
  lemma SetBlockCards(id: int, name: string, labels: seq<int>, setType: int)
    ensures LinesStartingWith(SetBlock(id, name, labels, setType), '$') == [HmSetLine(id, setType, name)]
    ensures var sets := LinesStartingWith(SetBlock(id, name, labels, setType), 'S');
      |sets| == 1 && StartsWith(sets[0], SetHeader(id))
  {
    var ts := SetTokens(labels);
    var body := ChunkLines(ts);
    var head := SetHeader(id) + body[0];
    var hm := HmSetLine(id, setType, name);
    assert SetBlock(id, name, labels, setType) == [head] + body[1..] + [hm];
    ContinuationLines(ts, body[1..], '$');
    ContinuationLines(ts, body[1..], 'S');
    LinesStartingWithBlock(head, body[1..], hm, '$');
    LinesStartingWithBlock(head, body[1..], hm, 'S');
    assert head[0] == 'S';
    assert hm[0] == '$';
    LinesStartingWithOne(head, '$');
    LinesStartingWithOne(head, 'S');
    LinesStartingWithOne(hm, '$');
    LinesStartingWithOne(hm, 'S');
    assert head[..|SetHeader(id)|] == SetHeader(id);
  }

  lemma SnocCard(prev: seq<string>, block: seq<string>, card: string, c: char)
    requires LinesStartingWith(block, c) == [card]
    ensures LinesStartingWith(prev + block, c) == LinesStartingWith(prev, c) + [card]
  {
    LinesStartingWithAppend(prev, block, c);
  }

  lemma {:induction false} SetBlocksHmSetCards(entries: seq<(string, seq<int>)>, setType: int)
    ensures var hm := LinesStartingWith(SetBlocks(entries, setType), '$');
      |hm| == |entries| && forall k :: 0 <= k < |entries| ==> hm[k] == HmSetLine(k + 1, setType, entries[k].0)
  {
    if entries != [] {
      var n := |entries|;
      var init := entries[..n - 1];
      var block := SetBlock(n, entries[n - 1].0, entries[n - 1].1, setType);
      var prev := SetBlocks(init, setType);
      SetBlocksHmSetCards(init, setType);
      SetBlockCards(n, entries[n - 1].0, entries[n - 1].1, setType);
      SnocCard(prev, block, HmSetLine(n, setType, entries[n - 1].0), '$');
      assert SetBlocks(entries, setType) == prev + block;
      var hm := LinesStartingWith(SetBlocks(entries, setType), '$');
      assert hm == LinesStartingWith(prev, '$') + [HmSetLine(n, setType, entries[n - 1].0)];
      forall k | 0 <= k < n
        ensures hm[k] == HmSetLine(k + 1, setType, entries[k].0)
      {
        if k < n - 1 {
          assert init[k] == entries[k];
        }
      }
    }
  }

  lemma HeadersSnoc(before: seq<string>, card: string)
    requires forall k :: 0 <= k < |before| ==> StartsWith(before[k], SetHeader(k + 1))
    requires StartsWith(card, SetHeader(|before| + 1))
    ensures forall k :: 0 <= k < |before| + 1 ==> StartsWith((before + [card])[k], SetHeader(k + 1))
  {
    forall k | 0 <= k < |before| + 1
      ensures StartsWith((before + [card])[k], SetHeader(k + 1))
    {
      if k < |before| {
        assert (before + [card])[k] == before[k];
      }
    }
  }

  lemma SetCardsStep(prev: seq<string>, block: seq<string>)
    requires var before := LinesStartingWith(prev, 'S');
      forall k :: 0 <= k < |before| ==> StartsWith(before[k], SetHeader(k + 1))
    requires var sets := LinesStartingWith(block, 'S');
      |sets| == 1 && StartsWith(sets[0], SetHeader(|LinesStartingWith(prev, 'S')| + 1))
    ensures var sets := LinesStartingWith(prev + block, 'S');
      && |sets| == |LinesStartingWith(prev, 'S')| + 1
      && forall k :: 0 <= k < |sets| ==> StartsWith(sets[k], SetHeader(k + 1))
  {
    var card := LinesStartingWith(block, 'S')[0];
    SnocCard(prev, block, card, 'S');
    HeadersSnoc(LinesStartingWith(prev, 'S'), card);
  }

  lemma {:induction false} SetBlocksSetCards(entries: seq<(string, seq<int>)>, setType: int)
    ensures var sets := LinesStartingWith(SetBlocks(entries, setType), 'S');
      |sets| == |entries| && forall k :: 0 <= k < |entries| ==> StartsWith(sets[k], SetHeader(k + 1))
  {
    if entries != [] {
      var n := |entries|;
      var init := entries[..n - 1];
      var block := SetBlock(n, entries[n - 1].0, entries[n - 1].1, setType);
      var prev := SetBlocks(init, setType);
      SetBlocksSetCards(init, setType);
      SetBlockCards(n, entries[n - 1].0, entries[n - 1].1, setType);
      assert SetBlocks(entries, setType) == prev + block;
      SetCardsStep(prev, block);
    }
  }

  /** The frame lines `CEND`, `BEGIN BULK` and `ENDDATA` are no SET or `$HMSET` cards. */
  lemma FrameCards(blocks: seq<string>, c: char)
    requires c == '$' || c == 'S'
    ensures LinesStartingWith(["CEND"] + blocks + ["BEGIN BULK", "ENDDATA"], c) == LinesStartingWith(blocks, c)
  {
    var tail := ["BEGIN BULK", "ENDDATA"];
    LinesStartingWithNone(["CEND"], c);
    LinesStartingWithNone(tail, c);
    LinesStartingWithAppend(["CEND"] + blocks, tail, c);
    LinesStartingWithAppend(["CEND"], blocks, c);
  }

  /**
   * The file starts with `CEND` and ends with `BEGIN BULK`, `ENDDATA`; its
   * `$HMSET` lines name the sets in the order given, numbered 1, 2, ..., and
   * its SET cards carry the same numbers in the same order.
   */
  lemma BdfCards(entries: seq<(string, seq<int>)>, setType: int)
    ensures var ls := BdfLines(entries, setType);
      && |ls| >= 3 && ls[0] == "CEND" && ls[|ls| - 2] == "BEGIN BULK" && ls[|ls| - 1] == "ENDDATA"
    ensures var hm := LinesStartingWith(BdfLines(entries, setType), '$');
      |hm| == |entries| && forall k :: 0 <= k < |entries| ==> hm[k] == HmSetLine(k + 1, setType, entries[k].0)
    ensures var sets := LinesStartingWith(BdfLines(entries, setType), 'S');
      |sets| == |entries| && forall k :: 0 <= k < |entries| ==> StartsWith(sets[k], SetHeader(k + 1))
  {
    SetBlocksHmSetCards(entries, setType);
    SetBlocksSetCards(entries, setType);
    FrameCards(SetBlocks(entries, setType), '$');
    FrameCards(SetBlocks(entries, setType), 'S');
  }

  /**
   * The entries of a SET card, read line by line, stand for exactly the
   * set's distinct labels, ascending.
   */
  lemma SetEntriesRoundTrip(labels: seq<int>)
    ensures ExpandTokens(Flatten(Chunks(SetTokens(labels)))) == Sort(Dedup(labels))
    ensures forall x :: x in ExpandTokens(Flatten(Chunks(SetTokens(labels)))) <==> x in labels
  {
    var ts := SetTokens(labels);
    ChunksFlatten(ts);
    HmTokensRoundTrip(Dedup(labels));
  }

  // ---------------------------------------------------------------------
  // `bdfExport`.
  // ---------------------------------------------------------------------

  /**
   * The inner loop of `bdfExport`: the entries of one SET card, `ChunkSize`
   * to a line, every line but the last ending in a comma.
   */
  method WriteEntries(bdf: TextFile, hmList: seq<Token>)
    modifies bdf
    ensures bdf.text == old(bdf.text) + Unlines(ChunkLines(hmList))
  {
    ghost var prefix := bdf.text;
    ghost var body := ChunkLines(hmList);
    var i := -(ChunkSize as int);
    var start := 0;
    ghost var j: nat := 0;
    assert body[..0] == [];
    while start < |hmList| - ChunkSize
      invariant start == ChunkSize * j && i == start - ChunkSize
      invariant j == 0 || start < |hmList|
      invariant bdf.text == prefix + Unlines(body[..j])
    {
      i := start;
      ChunkInner(hmList, j, i);
      UnlinesStep(prefix, body, j, JoinTokens(hmList[i..i + ChunkSize]) + ",\n");
      bdf.Write(JoinTokens(hmList[i..i + ChunkSize]) + ",\n");
      start := start + ChunkSize;
      j := j + 1;
    }
    i := i + ChunkSize;
    ChunkLast(hmList, j, i);
    UnlinesStep(prefix, body, j, JoinTokens(hmList[i..]) + "\n");
    bdf.Write(JoinTokens(hmList[i..]) + "\n");
    assert body[..j + 1] == body;
  }

  /** One pass of the outer loop of `bdfExport`: the lines of set number `matId`. */
  method WriteSet(bdf: TextFile, matId: int, matName: string, elems: seq<int>, setType: int)
    modifies bdf
    ensures bdf.text == old(bdf.text) + Unlines(SetBlock(matId, matName, elems, setType))
  {
    bdf.Write(SetHeader(matId));
    var hmList := HmRanges(elems);
    WriteEntries(bdf, hmList);
    bdf.Write(HmSetLine(matId, setType, matName) + "\n");
    SetBlockText(matId, matName, elems, setType);
    Assoc(old(bdf.text), SetHeader(matId), Unlines(ChunkLines(hmList)));
    Assoc(old(bdf.text), SetHeader(matId) + Unlines(ChunkLines(hmList)), HmSetLine(matId, setType, matName) + "\n");
  }

  /**
   * `bdfExport(bdf, setDict, setType=2)`, with the dictionary given as its
   * items in ascending name order.
   */
  method BdfExport(bdf: TextFile, setDict: seq<(string, seq<int>)>, setType: int := ElementSetType)
    requires NamesAscending(setDict)
    modifies bdf
    ensures bdf.text == old(bdf.text) + Unlines(BdfLines(setDict, setType))
  {
    bdf.Write("CEND\n");
    ghost var base := bdf.text;
    var matId := 1;
    assert setDict[..0] == [];
    while matId <= |setDict|
      invariant 1 <= matId <= |setDict| + 1
      invariant bdf.text == base + Unlines(SetBlocks(setDict[..matId - 1], setType))
    {
      var matName := setDict[matId - 1].0;
      var elems := setDict[matId - 1].1;
      WriteSet(bdf, matId, matName, elems, setType);
      SetBlocksSnoc(setDict, matId - 1, setType);
      Assoc(base, Unlines(SetBlocks(setDict[..matId - 1], setType)), Unlines(SetBlock(matId, matName, elems, setType)));
      matId := matId + 1;
    }
    assert setDict[..|setDict|] == setDict;
    bdf.Write("BEGIN BULK\n");
    bdf.Write("ENDDATA\n");
    BdfText(setDict, setType);
    Assoc(old(bdf.text), "CEND\n", Unlines(SetBlocks(setDict, setType)));
    Assoc(old(bdf.text) + "CEND\n" + Unlines(SetBlocks(setDict, setType)), "BEGIN BULK\n", "ENDDATA\n");
    Assoc(old(bdf.text), "CEND\n" + Unlines(SetBlocks(setDict, setType)), "BEGIN BULK\n" + "ENDDATA\n");
  }
}
