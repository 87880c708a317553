/** The text-box import of the pool management page (app.py:745-769):
    one "platform,order" record per line, split on the first comma. */
module TextImport {
  import opened Common
  import opened Text

  /** A record as the parser can produce it: both parts stripped, no
      comma in the platform, no newline anywhere. */
  predicate WellFormed(pair: (string, string))
  {
    Stripped(pair.0) && Stripped(pair.1)
    && ',' !in pair.0 && '\n' !in pair.0 && '\n' !in pair.1
  }

  /** One line: blank lines and lines without a comma give nothing;
      otherwise the stripped parts before and after the first comma. */
  function ParseLine(line: string): (r: Option<(string, string)>)
    ensures r.None? <==> ',' !in line
    ensures r.Some? ==> Stripped(r.value.0) && Stripped(r.value.1)
    ensures r.Some? ==> ',' !in r.value.0
    ensures r.Some? && '\n' !in line ==> '\n' !in r.value.0 && '\n' !in r.value.1
  {
    var l := Trim(line);
    TrimKeepsChars(line);
    assert !IsSpace(',');
    if |l| == 0 then
      None
    else
      match SplitFirstComma(l)
      case None => None
      case Some((a, b)) =>
        assert forall c :: c in a ==> c in l;
        assert forall c :: c in b ==> c in l;
        TrimKeepsChars(a);
        TrimKeepsChars(b);
        Some((Trim(a), Trim(b)))
  }

  /** A line with a comma: its record is the stripped text before the
      first comma and the stripped text after it. */
  lemma ParseLineOf(a: string, b: string)
    requires ',' !in a
    ensures ParseLine(a + "," + b) == Some((Trim(a), Trim(b)))
  {
    var la, rb := TrimLeft(a), TrimRight(b);
    TrimAroundComma(a, b);
    assert ',' !in la by {
      assert forall c :: c in la ==> c in a;
    }
    SplitFirstCommaOf(la, rb);
    TrimOfTrimLeft(a);
    TrimOfTrimRight(b);
  }

  /** The records of a sequence of lines, in line order. */
  function ParsePairs(lines: seq<string>): (r: seq<(string, string)>)
    ensures |r| <= |lines|
  {
    if lines == [] then []
    else
      var init := ParsePairs(lines[..|lines| - 1]);
      match ParseLine(lines[|lines| - 1])
      case None => init
      case Some(pair) => init + [pair]
  }

  /** Parsing one more line appends at most that line's record. */
  lemma ParsePairsSnoc(init: seq<string>, line: string)
    ensures ParsePairs(init + [line])
      == if ParseLine(line).Some? then ParsePairs(init) + [ParseLine(line).value] else ParsePairs(init)
  {
    assert (init + [line])[..|init|] == init;
  }

  /** What the import button hands to process_orders for a given text:
      the whole text is stripped, then split on newlines. */
  function ParsedText(text: string): (r: seq<(string, string)>)
    ensures forall k :: 0 <= k < |r| ==> WellFormed(r[k])
  {
    ParsePairsWellFormed(SplitLines(Trim(text)));
    ParsePairs(SplitLines(Trim(text)))
  }

  /** A blank text yields no records. */
  lemma BlankTextParsesEmpty(text: string)
    requires forall i :: 0 <= i < |text| ==> IsSpace(text[i])
    ensures ParsedText(text) == []
  {
    assert SplitLines("") == [""];
    assert ParseLine("") == None;
    assert [""][..0] == [];
  }

  /** Every record parsed from newline-free lines is well formed. */
  lemma {:induction false} ParsePairsWellFormed(lines: seq<string>)
    requires forall k :: 0 <= k < |lines| ==> '\n' !in lines[k]
    ensures forall k :: 0 <= k < |ParsePairs(lines)| ==> WellFormed(ParsePairs(lines)[k])
  {
    if lines != [] {
      var init := lines[..|lines| - 1];
      var last := lines[|lines| - 1];
      assert forall k :: 0 <= k < |init| ==> init[k] == lines[k];
      ParsePairsWellFormed(init);
      SplitLast(lines);
      ParsePairsSnoc(init, last);
      var r := ParsePairs(init);
      match ParseLine(last)
      case None =>
      case Some(pair) =>
        assert WellFormed(pair);
        forall k | 0 <= k < |r| + 1
          ensures WellFormed((r + [pair])[k])
        {
          if k < |r| {
            assert (r + [pair])[k] == r[k];
          }
        }
    }
  }

  /** Lines without a comma, blank ones included, are dropped without a
      trace: the number of records is the number of lines with a comma. */
  function CommaLines(lines: seq<string>): nat
  {
    if lines == [] then 0
    else CommaLines(lines[..|lines| - 1]) + (if ',' in lines[|lines| - 1] then 1 else 0)
  }

  lemma {:induction false} ParsePairsCount(lines: seq<string>)
    ensures |ParsePairs(lines)| == CommaLines(lines)
  {
    if lines != [] {
      ParsePairsCount(lines[..|lines| - 1]);
    }
  }

  /** The parsing loop of app.py:749-765. */
  method ParseImportText(text: string) returns (pairs: seq<(string, string)>)
    ensures pairs == ParsedText(text)
    ensures forall k :: 0 <= k < |pairs| ==> WellFormed(pairs[k])
  {
    var lines := SplitLines(Trim(text));
    pairs := ParseLines(lines);
    ParsePairsWellFormed(lines);
  }

  /** The loop over the lines (app.py:751-762): each line's record, if
      any, is appended in turn. */
  method ParseLines(lines: seq<string>) returns (pairs: seq<(string, string)>)
    ensures pairs == ParsePairs(lines)
  {
    pairs := [];
    for i := 0 to |lines|
      invariant pairs == ParsePairs(lines[..i])
    {
      var parsed := ParseLine(lines[i]);
      TakeSnoc(lines, i);
      ParsePairsSnoc(lines[..i], lines[i]);
      if parsed.Some? {
        pairs := pairs + [parsed.value];
      }
    }
    TakeAll(lines);
  }

  /** The text a list of records is typed as: one "platform,order" per line. */
  function Render(pairs: seq<(string, string)>): string
  {
    JoinLines(RenderLines(pairs))
  }

  function RenderLines(pairs: seq<(string, string)>): (r: seq<string>)
    ensures |r| == |pairs|
    ensures forall k :: 0 <= k < |pairs| ==> r[k] == pairs[k].0 + "," + pairs[k].1
  {
    if pairs == [] then [] else RenderLines(pairs[..|pairs| - 1]) + [pairs[|pairs| - 1].0 + "," + pairs[|pairs| - 1].1]
  }

  lemma ParseRenderedLine(pair: (string, string))
    requires WellFormed(pair)
    ensures ParseLine(pair.0 + "," + pair.1) == Some(pair)
  {
    var line := pair.0 + "," + pair.1;
    assert line[|pair.0|] == ',';
    assert !IsSpace(line[0]) by {
      if pair.0 != [] { assert line[0] == pair.0[0]; }
    }
    assert !IsSpace(line[|line| - 1]) by {
      if pair.1 != [] { assert line[|line| - 1] == pair.1[|pair.1| - 1]; }
    }
    assert Stripped(line);
    SplitFirstCommaOf(pair.0, pair.1);
  }

  lemma {:induction false} ParseRenderedLines(pairs: seq<(string, string)>)
    requires forall k :: 0 <= k < |pairs| ==> WellFormed(pairs[k])
    ensures ParsePairs(RenderLines(pairs)) == pairs
  {
    if pairs != [] {
      var n := |pairs|;
      var init := pairs[..n - 1];
      var line := pairs[n - 1].0 + "," + pairs[n - 1].1;
      var lines := RenderLines(init) + [line];
      assert RenderLines(pairs) == lines;
      ParseRenderedLines(init);
      ParseRenderedLine(pairs[n - 1]);
      ParsePairsSnoc(RenderLines(init), line);
      assert ParsePairs(lines) == init + [pairs[n - 1]];
      SplitLast(pairs);
    }
  }

  lemma {:induction false} JoinLinesEnds(lines: seq<string>)
    requires |lines| >= 1 && forall k :: 0 <= k < |lines| ==> lines[k] != []
    ensures |JoinLines(lines)| > 0
    ensures JoinLines(lines)[0] == lines[0][0]
    ensures JoinLines(lines)[|JoinLines(lines)| - 1] == lines[|lines| - 1][|lines[|lines| - 1]| - 1]
  {
    if |lines| > 1 {
      var rest := lines[1..];
      assert forall k :: 0 <= k < |rest| ==> rest[k] == lines[k + 1];
      JoinLinesEnds(rest);
      var tail := JoinLines(rest);
      var s := lines[0] + "\n" + tail;
      assert JoinLines(lines) == s;
      assert s[0] == lines[0][0];
      assert s[|s| - 1] == tail[|tail| - 1];
      assert rest[|rest| - 1] == lines[|lines| - 1];
    }
  }

  /** Typing well-formed records one per line and pressing import hands
      exactly those records, in order, to process_orders. */
  lemma ParseRender(pairs: seq<(string, string)>)
    requires forall k :: 0 <= k < |pairs| ==> WellFormed(pairs[k])
    ensures ParsedText(Render(pairs)) == pairs
  {
    var lines := RenderLines(pairs);
    if pairs == [] {
      assert SplitLines("") == [""];
      assert ParseLine("") == None;
      assert [""][..0] == [];
    } else {
      var n := |pairs|;
      var first := pairs[0].0 + "," + pairs[0].1;
      var last := pairs[n - 1].0 + "," + pairs[n - 1].1;
      assert first[|pairs[0].0|] == ',' && last[|pairs[n - 1].0|] == ',';
      assert lines[0] == first && lines[n - 1] == last;
      JoinLinesEnds(lines);
      var text := Render(pairs);
      assert text[0] == first[0] && text[|text| - 1] == last[|last| - 1];
      assert !IsSpace(',');
      assert !IsSpace(first[0]) by {
        if pairs[0].0 != [] { assert WellFormed(pairs[0]); assert first[0] == pairs[0].0[0]; }
      }
      assert !IsSpace(last[|last| - 1]) by {
        if pairs[n - 1].1 != [] { assert WellFormed(pairs[n - 1]); assert last[|last| - 1] == pairs[n - 1].1[|pairs[n - 1].1| - 1]; }
      }
      assert Stripped(text);
      SplitJoinLines(lines);
      ParseRenderedLines(pairs);
    }
  }
}
