/**
 * The parser of the TFR frequently-asked-questions text. After the heading
 * "Domande frequenti (FAQ)" every question starts with the mark '❓'. The first line
 * of a block holds the question, up to its first '?', and possibly the start of the
 * answer; the following lines form the answer's paragraphs, separated by blank lines.
 */
module TfrFaq {
  import opened Text
  import opened Sequences

  datatype Faq = Faq(question: string, answer: string)

  const FaqMarker := "Domande frequenti (FAQ)"
  const QuestionMark: char := '\U{2753}'

  /** `s.indexOf(sub)` for a text pattern: the first position of `sub`, or -1. */
  function FindSub(s: string, sub: string): (r: int)
    ensures -1 <= r <= |s|
    ensures r == -1 <==> !Contains(s, sub)
    ensures r >= 0 ==> r + |sub| <= |s| && s[r..r + |sub|] == sub
    decreases |s|
  {
    if StartsWith(s, sub) then 0
    else if s == [] then -1
    else
      var k := FindSub(s[1..], sub);
      if k == -1 then -1
      else
        assert s[1..][k..k + |sub|] == s[k + 1..k + 1 + |sub|];
        k + 1
  }

  // ---------------------------------------------------------------------------
  // Paragraphs.

  /** Closing a paragraph: the buffered lines joined by spaces, if there are any. */
  function Flush(buffer: seq<string>): (r: seq<string>)
    ensures |r| <= 1
    ensures r == [] <==> buffer == []
  {
    if buffer == [] then [] else [Join(buffer, " ")]
  }

  /**
   * The paragraphs the answer lines give, starting from the lines already buffered:
   * each non-blank line is trimmed and buffered, a blank line closes the paragraph.
   */
  function ParagraphsFrom(buffer: seq<string>, lines: seq<string>): seq<string>
    decreases |lines|
  {
    if lines == [] then Flush(buffer)
    else if Trim(lines[0]) == [] then Flush(buffer) + ParagraphsFrom([], lines[1..])
    else ParagraphsFrom(buffer + [Trim(lines[0])], lines[1..])
  }

  /** The non-blank lines, trimmed: what the paragraphs are made of. */
  function NonBlankLines(lines: seq<string>): (r: seq<string>)
    ensures forall k :: 0 <= k < |r| ==> r[k] != []
  {
    if lines == [] then []
    else if Trim(lines[0]) == [] then NonBlankLines(lines[1..])
    else [Trim(lines[0])] + NonBlankLines(lines[1..])
  }

  predicate AllNonEmpty(parts: seq<string>) {
    forall k :: 0 <= k < |parts| ==> parts[k] != []
  }

  predicate NoneHolds(parts: seq<string>, c: char) {
    forall k :: 0 <= k < |parts| ==> c !in parts[k]
  }

  lemma {:induction false} JoinNonEmpty(parts: seq<string>, sep: string)
    requires parts != [] && AllNonEmpty(parts)
    ensures Join(parts, sep) != []
  {
    if |parts| > 1 {
      assert Join(parts, sep) == parts[0] + sep + Join(parts[1..], sep);
      assert |Join(parts, sep)| >= |parts[0]|;
    }
  }

  lemma {:induction false} JoinEmptyParts(parts: seq<string>, sep: string)
    requires AllNonEmpty(parts) && Join(parts, sep) == []
    ensures parts == []
  {
    if parts != [] {
      JoinNonEmpty(parts, sep);
    }
  }

  /** A character in neither the pieces nor the separator is not in their join. */
  lemma {:induction false} JoinAvoids(parts: seq<string>, sep: string, c: char)
    requires NoneHolds(parts, c) && c !in sep
    ensures c !in Join(parts, sep)
  {
    if |parts| > 1 {
      JoinAvoids(parts[1..], sep, c);
    }
  }

  /** Joining two non-empty lists puts one separator between their joins. */
  lemma {:induction false} JoinAppend(a: seq<string>, b: seq<string>, sep: string)
    requires a != [] && b != []
    ensures Join(a + b, sep) == Join(a, sep) + sep + Join(b, sep)
  {
    if |a| == 1 {
      assert (a + b)[0] == a[0] && (a + b)[1..] == b;
    } else {
      assert (a + b)[0] == a[0] && (a + b)[1..] == a[1..] + b;
      JoinAppend(a[1..], b, sep);
    }
  }

  /** Every paragraph is non-empty and free of line breaks, given a buffer that is. */
  lemma ParagraphsWellFormed(buffer: seq<string>, lines: seq<string>)
    requires AllNonEmpty(buffer) && NoneHolds(buffer, '\n')
    requires NoneHolds(lines, '\n')
    ensures AllNonEmpty(ParagraphsFrom(buffer, lines))
    ensures NoneHolds(ParagraphsFrom(buffer, lines), '\n')
  {
    ParagraphsWellFormedNonEmpty(buffer, lines);
    ParagraphsAvoid(buffer, lines, '\n');
  }

  /** A character other than the space that is in no line is in no paragraph. */
  lemma {:induction false} ParagraphsAvoid(buffer: seq<string>, lines: seq<string>, c: char)
    requires NoneHolds(buffer, c) && NoneHolds(lines, c) && c != ' '
    ensures NoneHolds(ParagraphsFrom(buffer, lines), c)
    decreases |lines|
  {
    if buffer != [] {
      JoinAvoids(buffer, " ", c);
    }
    if lines != [] {
      var t := Trim(lines[0]);
      assert NoneHolds(lines[1..], c) by {
        assert forall k :: 0 <= k < |lines[1..]| ==> lines[1..][k] == lines[k + 1];
      }
      if t == [] {
        ParagraphsAvoid([], lines[1..], c);
        NoneHoldsAppend(Flush(buffer), ParagraphsFrom([], lines[1..]), c);
      } else {
        assert c !in t by {
          TrimAvoids(lines[0], c);
        }
        NoneHoldsAppend(buffer, [t], c);
        ParagraphsAvoid(buffer + [t], lines[1..], c);
      }
    }
  }

  lemma NoneHoldsAppend(a: seq<string>, b: seq<string>, c: char)
    requires NoneHolds(a, c) && NoneHolds(b, c)
    ensures NoneHolds(a + b, c)
  {
  }

  lemma AllNonEmptyAppend(a: seq<string>, b: seq<string>)
    requires AllNonEmpty(a) && AllNonEmpty(b)
    ensures AllNonEmpty(a + b)
  {
  }

  /**
   * No text is lost or added: the paragraphs, joined by spaces, are the buffered lines
   * and the non-blank trimmed lines joined by spaces.
   */
  lemma {:induction false} ParagraphsKeepText(buffer: seq<string>, lines: seq<string>)
    requires AllNonEmpty(buffer)
    ensures Join(ParagraphsFrom(buffer, lines), " ") == Join(buffer + NonBlankLines(lines), " ")
    decreases |lines|
  {
    if lines == [] {
      assert buffer + NonBlankLines(lines) == buffer;
    } else if Trim(lines[0]) == [] {
      ParagraphsKeepText([], lines[1..]);
      KeepTextAtBlank(buffer, lines);
    } else {
      ParagraphsKeepText(buffer + [Trim(lines[0])], lines[1..]);
      ConcatAssoc(buffer, [Trim(lines[0])], NonBlankLines(lines[1..]));
    }
  }

  /** The blank-line case of ParagraphsKeepText. */
  lemma KeepTextAtBlank(buffer: seq<string>, lines: seq<string>)
    requires lines != [] && Trim(lines[0]) == [] && AllNonEmpty(buffer)
    requires Join(ParagraphsFrom([], lines[1..]), " ") == Join([] + NonBlankLines(lines[1..]), " ")
    ensures Join(ParagraphsFrom(buffer, lines), " ") == Join(buffer + NonBlankLines(lines), " ")
  {
    var tail := ParagraphsFrom([], lines[1..]);
    var nb := NonBlankLines(lines[1..]);
    assert [] + nb == nb;
    assert NonBlankLines(lines) == nb;
    assert ParagraphsFrom(buffer, lines) == Flush(buffer) + tail;
    ParagraphsWellFormedNonEmpty([], lines[1..]);
    if buffer == [] {
      assert Flush(buffer) + tail == tail;
      assert buffer + nb == nb;
    } else if tail == [] {
      JoinEmptyParts(nb, " ");
      assert Flush(buffer) + tail == [Join(buffer, " ")];
      assert buffer + nb == buffer;
    } else {
      JoinNonEmpty(tail, " ");
      assert nb != [];
      JoinAppend([Join(buffer, " ")], tail, " ");
      JoinAppend(buffer, nb, " ");
    }
  }

  /** Every paragraph is non-empty, given a buffer whose lines are. */
  lemma {:induction false} ParagraphsWellFormedNonEmpty(buffer: seq<string>, lines: seq<string>)
    requires AllNonEmpty(buffer)
    ensures AllNonEmpty(ParagraphsFrom(buffer, lines))
    decreases |lines|
  {
    if buffer != [] {
      JoinNonEmpty(buffer, " ");
    }
    if lines != [] {
      var t := Trim(lines[0]);
      if t == [] {
        ParagraphsWellFormedNonEmpty([], lines[1..]);
        AllNonEmptyAppend(Flush(buffer), ParagraphsFrom([], lines[1..]));
      } else {
        AllNonEmptyAppend(buffer, [t]);
        ParagraphsWellFormedNonEmpty(buffer + [t], lines[1..]);
      }
    }
  }

  /** The `forEach` over the remaining lines, with its mutable buffer and paragraph list. */
  method CollectParagraphs(leadingAnswer: string, lines: seq<string>) returns (paragraphs: seq<string>)
    ensures paragraphs == ParagraphsFrom(if leadingAnswer != [] then [leadingAnswer] else [], lines)
  {
    paragraphs := [];
    var buffer: seq<string> := [];
    if leadingAnswer != [] {
      buffer := [leadingAnswer];
    }
    ghost var total := ParagraphsFrom(buffer, lines);
    assert total == ParagraphsFrom(if leadingAnswer != [] then [leadingAnswer] else [], lines);
    assert lines[0..] == lines;
    var i := 0;
    while i < |lines|
      invariant 0 <= i <= |lines|
      invariant paragraphs + ParagraphsFrom(buffer, lines[i..]) == total
    {
      var trimmed := Trim(lines[i]);
      ghost var before := paragraphs;
      ghost var buffered := buffer;
      if trimmed == [] {
        if |buffer| > 0 {
          paragraphs := paragraphs + [Join(buffer, " ")];
          buffer := [];
        } else {
          assert Flush(buffered) == [];
          assert before + Flush(buffered) == before;
        }
      } else {
        buffer := buffer + [trimmed];
      }
      LineStep(before, buffered, lines, i, paragraphs, buffer, total);
      i := i + 1;
    }
    ghost var before := paragraphs;
    if |buffer| > 0 {
      paragraphs := paragraphs + [Join(buffer, " ")];
    }
    LastFlush(before, buffer, lines, paragraphs, total);
  }

  /** The loop invariant survives one line, blank or not. */
  lemma LineStep(before: seq<string>, buffered: seq<string>, lines: seq<string>, i: nat,
                 after: seq<string>, buffer: seq<string>, total: seq<string>)
    requires i < |lines|
    requires before + ParagraphsFrom(buffered, lines[i..]) == total
    requires Trim(lines[i]) == [] ==> after == before + Flush(buffered) && buffer == []
    requires Trim(lines[i]) != [] ==> after == before && buffer == buffered + [Trim(lines[i])]
    ensures after + ParagraphsFrom(buffer, lines[i + 1..]) == total
  {
    ParagraphsStep(buffered, lines, i);
    if Trim(lines[i]) == [] {
      ConcatAssoc(before, Flush(buffered), ParagraphsFrom([], lines[i + 1..]));
    }
  }

  /** After the last line the buffer is flushed once more. */
  lemma LastFlush(before: seq<string>, buffer: seq<string>, lines: seq<string>, after: seq<string>, total: seq<string>)
    requires before + ParagraphsFrom(buffer, lines[|lines|..]) == total
    requires after == before + Flush(buffer)
    ensures after == total
  {
    assert lines[|lines|..] == [];
  }

  lemma ConcatAssoc<T>(a: seq<T>, b: seq<T>, c: seq<T>)
    ensures (a + b) + c == a + (b + c)
  {
  }

  /** One step of the line loop, as the paragraph function sees it. */
  lemma ParagraphsStep(buffer: seq<string>, lines: seq<string>, i: nat)
    requires i < |lines|
    ensures Trim(lines[i]) == [] ==>
      ParagraphsFrom(buffer, lines[i..]) == Flush(buffer) + ParagraphsFrom([], lines[i + 1..])
    ensures Trim(lines[i]) != [] ==>
      ParagraphsFrom(buffer, lines[i..]) == ParagraphsFrom(buffer + [Trim(lines[i])], lines[i + 1..])
  {
    assert lines[i..][0] == lines[i] && lines[i..][1..] == lines[i + 1..];
  }

  // ---------------------------------------------------------------------------
  // Entries.

  /** The question of a block's first line: up to and including the first '?', trimmed. */
  function Question(firstLine: string): string {
    var q := IndexOf(firstLine, '?');
    if q >= 0 then Trim(firstLine[..q + 1]) else firstLine
  }

  /** The text after the first '?', trimmed, which opens the answer. */
  function LeadingAnswer(firstLine: string): string {
    var q := IndexOf(firstLine, '?');
    if q >= 0 then Trim(firstLine[q + 1..]) else ""
  }

  /** The paragraphs of one block's answer: the text after the question, then the other lines. */
  function EntryParagraphs(entry: string): seq<string> {
    var lines := Split(entry, '\n');
    var leading := LeadingAnswer(Trim(lines[0]));
    ParagraphsFrom(if leading != [] then [leading] else [], lines[1..])
  }

  /** One block: the first line gives the question, the rest the answer's paragraphs. */
  function ParseEntry(entry: string): (faq: Faq)
  {
    Faq(Question(Trim(Split(entry, '\n')[0])), Join(EntryParagraphs(entry), "\n"))
  }

  /** A question cut at a '?' ends with it and holds no earlier '?'. */
  lemma QuestionEndsAtMark(firstLine: string)
    requires '?' in firstLine
    ensures var q := Question(firstLine);
      q != [] && q[|q| - 1] == '?' && '?' !in q[..|q| - 1]
  {
    QuestionCut(firstLine);
    CutAtFirst(firstLine, '?');
    MarkStaysLast(firstLine[..IndexOf(firstLine, '?') + 1]);
  }

  lemma QuestionCut(firstLine: string)
    requires '?' in firstLine
    ensures Question(firstLine) == Trim(firstLine[..IndexOf(firstLine, '?') + 1])
  {
  }

  /** Cutting just after the first x leaves a text that ends with it and has no earlier x. */
  lemma CutAtFirst(s: string, x: char)
    requires x in s
    ensures var u := s[..IndexOf(s, x) + 1];
      u != [] && u[|u| - 1] == x && x !in u[..|u| - 1]
  {
    var i := IndexOf(s, x);
    assert s[..i + 1][..i] == s[..i];
  }

  /** Trimming a text that ends at its only '?' keeps that mark last and adds no other. */
  lemma MarkStaysLast(upTo: string)
    requires upTo != [] && upTo[|upTo| - 1] == '?' && '?' !in upTo[..|upTo| - 1]
    ensures var q := Trim(upTo);
      q != [] && q[|q| - 1] == '?' && '?' !in q[..|q| - 1]
  {
    TrimKeepsLast(upTo);
    TrimIsSuffix(upTo);
    var q := Trim(upTo);
    var body := q[..|q| - 1];
    forall k | 0 <= k < |body| ensures body[k] != '?' {
      // Trimming only drops leading characters, so body[k] already stands before the mark.
      assert body[k] == upTo[..|upTo| - 1][|upTo| - |q| + k];
    }
  }

  /**
   * The answer's lines are exactly the paragraphs: none is empty and none holds a line
   * break, so splitting the answer at line breaks gives them back.
   */
  lemma AnswerLinesAreParagraphs(entry: string)
    ensures var paragraphs := EntryParagraphs(entry);
      && AllNonEmpty(paragraphs)
      && (paragraphs != [] ==> Split(ParseEntry(entry).answer, '\n') == paragraphs)
      && (paragraphs == [] ==> ParseEntry(entry).answer == [])
  {
    EntryParagraphsWellFormed(entry);
    JoinedParagraphs(EntryParagraphs(entry), ParseEntry(entry).answer);
  }

  /** A block's paragraphs are non-empty and hold no line break. */
  lemma EntryParagraphsWellFormed(entry: string)
    ensures AllNonEmpty(EntryParagraphs(entry)) && NoneHolds(EntryParagraphs(entry), '\n')
  {
    var lines := Split(entry, '\n');
    var rest := lines[1..];
    NoneHoldsTail(lines, rest, '\n');
    BlockParagraphsWellFormed(lines[0], rest);
  }

  /** The paragraphs of a block whose first line and remaining lines hold no line break. */
  lemma BlockParagraphsWellFormed(line: string, rest: seq<string>)
    requires '\n' !in line && NoneHolds(rest, '\n')
    ensures var leading := LeadingAnswer(Trim(line));
      var paragraphs := ParagraphsFrom(if leading != [] then [leading] else [], rest);
      AllNonEmpty(paragraphs) && NoneHolds(paragraphs, '\n')
  {
    var leading := LeadingAnswer(Trim(line));
    LeadingAnswerOneLine(line);
    ParagraphsWellFormed(if leading != [] then [leading] else [], rest);
  }

  lemma NoneHoldsTail(parts: seq<string>, rest: seq<string>, c: char)
    requires parts != [] && rest == parts[1..] && NoneHolds(parts, c)
    ensures NoneHolds(rest, c)
  {
    assert forall k :: 0 <= k < |rest| ==> rest[k] == parts[k + 1];
  }

  /** Well-formed paragraphs joined by line breaks split back into themselves. */
  lemma JoinedParagraphs(paragraphs: seq<string>, answer: string)
    requires AllNonEmpty(paragraphs) && NoneHolds(paragraphs, '\n')
    requires answer == Join(paragraphs, "\n")
    ensures paragraphs != [] ==> Split(answer, '\n') == paragraphs
    ensures paragraphs == [] ==> answer == []
  {
    if paragraphs != [] {
      SplitJoin(paragraphs, '\n');
    }
  }

  /** The start of the answer taken from a line holds no line break. */
  lemma LeadingAnswerOneLine(line: string)
    requires '\n' !in line
    ensures '\n' !in LeadingAnswer(Trim(line))
  {
    var firstLine := Trim(line);
    TrimAvoids(line, '\n');
    var q := IndexOf(firstLine, '?');
    if q >= 0 {
      TrimAvoids(firstLine[q + 1..], '\n');
    }
  }

  /** The method that builds one entry, shifting the first line off the list. */
  method BuildEntry(entry: string) returns (faq: Faq)
    ensures faq == ParseEntry(entry)
  {
    var lines := Split(entry, '\n');
    var firstLine := Trim(lines[0]);
    lines := lines[1..];
    var question := Question(firstLine);
    var leadingAnswer := LeadingAnswer(firstLine);
    var paragraphs := CollectParagraphs(leadingAnswer, lines);
    faq := Faq(question, Join(paragraphs, "\n"));
  }

  // ---------------------------------------------------------------------------
  // The whole text.

  /** The question blocks: the pieces after each '❓' of the FAQ section, trimmed, the empty ones dropped. */
  function Blocks(raw: string, start: nat): (r: seq<string>)
    requires start <= |raw|
    ensures AllNonEmpty(r)
    ensures |r| <= |Split(raw[start..], QuestionMark)| - 1
  {
    var chunks := Split(raw[start..], QuestionMark)[1..];
    var trimmed := seq(|chunks|, i requires 0 <= i < |chunks| => Trim(chunks[i]));
    Filter(trimmed, (b: string) => b != [])
  }

  /** `parseFaqEntries` */
  function ParseFaqEntries(raw: string): (r: seq<Faq>)
    ensures !Contains(raw, FaqMarker) ==> r == []
    ensures forall k :: 0 <= k < |r| ==> r[k].question != []
  {
    var start := FindSub(raw, FaqMarker);
    if start == -1 then []
    else
      Filter(ParseBlocks(Blocks(raw, start)), (f: Faq) => f.question != [])
  }

  /** Every block parsed, in order. */
  function ParseBlocks(blocks: seq<string>): (r: seq<Faq>)
    ensures |r| == |blocks|
    ensures forall i :: 0 <= i < |blocks| ==> r[i] == ParseEntry(blocks[i])
  {
    seq(|blocks|, i requires 0 <= i < |blocks| => ParseEntry(blocks[i]))
  }

  /** A parsed entry is the parse of one of the blocks. */
  lemma ParsedFromBlock(blocks: seq<string>, f: Faq)
    requires f in ParseBlocks(blocks)
    ensures exists b :: b in blocks && f == ParseEntry(b)
  {
    var parsed := ParseBlocks(blocks);
    var i :| 0 <= i < |parsed| && parsed[i] == f;
    assert blocks[i] in blocks;
  }

  /**
   * Each entry comes from its own '❓' block after the heading: there are at most as many
   * entries as marks, and every entry is the parse of one non-empty trimmed block.
   */
  lemma EntriesComeFromBlocks(raw: string)
    requires Contains(raw, FaqMarker)
    ensures var start := FindSub(raw, FaqMarker);
      var r := ParseFaqEntries(raw);
      && |r| <= |Split(raw[start..], QuestionMark)| - 1
      && forall f :: f in r ==> exists b :: b in Blocks(raw, start) && f == ParseEntry(b)
  {
    var start := FindSub(raw, FaqMarker);
    var blocks := Blocks(raw, start);
    forall f | f in ParseFaqEntries(raw) ensures exists b :: b in blocks && f == ParseEntry(b) {
      ParsedFromBlock(blocks, f);
    }
  }
}
