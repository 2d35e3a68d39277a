/**
 * The text block used for every narrative text (`UnifiedTextBlock`): the text is cut into
 * paragraphs at blank lines, blank pieces are dropped, and each paragraph is classed as
 * emphasised (a question-like opening paragraph) and/or numbered (an ordinal opening word).
 */
module UnifiedTextBlock {
  import opened JsString

  /** The paragraph separator, a blank line. */
  const PARAGRAPH_BREAK: string := "\n\n"

  /** The openings that make a first paragraph a question. */
  const QUESTION_PREFIXES: seq<string> :=
    ["What happened", "Where do", "Что произошло", "Где", "Why", "Почему"]

  /** The ordinal words of `/^(First|Second|...|В-пятых)/`. */
  const ORDINAL_PREFIXES: seq<string> :=
    ["First", "Second", "Third", "Fourth", "Fifth", "Во-первых", "Во-вторых", "В-третьих", "В-четвёртых", "В-пятых"]

  /** `pieces.filter(p => p.trim() !== '')`. */
  function NonBlank(pieces: seq<string>): (r: seq<string>)
    ensures forall p :: p in r <==> p in pieces && !IsBlank(p)
    ensures |r| <= |pieces|
  {
    if pieces == [] then []
    else if IsBlank(pieces[0]) then NonBlank(pieces[1..])
    else [pieces[0]] + NonBlank(pieces[1..])
  }

  /** A single piece survives exactly when it is not blank. */
  lemma NonBlankSingle(p: string)
    ensures NonBlank([p]) == if IsBlank(p) then [] else [p]
  {
    assert [p][1..] == [];
  }

  /** Filtering a concatenation filters each part in place, so the kept pieces keep their order. */
  lemma {:induction false} NonBlankAppend(a: seq<string>, b: seq<string>)
    ensures NonBlank(a + b) == NonBlank(a) + NonBlank(b)
  {
    if a == [] {
      assert a + b == b;
    } else {
      var ab := a + b;
      assert ab[0] == a[0] && ab[1..] == a[1..] + b;
      NonBlankAppend(a[1..], b);
      if IsBlank(a[0]) {
        assert NonBlank(ab) == NonBlank(a[1..] + b);
      } else {
        assert NonBlank(ab) == [a[0]] + NonBlank(a[1..] + b);
      }
    }
  }

  /** `text.split('\n\n').filter(p => p.trim() !== '')`. */
  function Paragraphs(text: string): seq<string>
  {
    NonBlank(Split(text, PARAGRAPH_BREAK))
  }

  /** No paragraph is blank and none contains a blank-line separator. */
  lemma ParagraphsClean(text: string)
    ensures forall p :: p in Paragraphs(text) ==> !IsBlank(p) && !Contains(p, PARAGRAPH_BREAK)
  {
    var pieces := Split(text, PARAGRAPH_BREAK);
    SplitPiecesFree(text, PARAGRAPH_BREAK);
    forall p | p in Paragraphs(text) ensures !Contains(p, PARAGRAPH_BREAK) {
      var k :| 0 <= k < |pieces| && pieces[k] == p;
    }
  }

  /** Text that is empty or only white space gives no paragraphs. */
  lemma BlankTextHasNoParagraphs(text: string)
    requires IsBlank(text)
    ensures Paragraphs(text) == []
  {
    var pieces := Split(text, PARAGRAPH_BREAK);
    BlankIffAllWhitespace(text);
    forall k | 0 <= k < |pieces| ensures IsBlank(pieces[k]) {
      BlankPieces(text, pieces[k]);
    }
    NonBlankOfBlanks(pieces);
  }

  /** Filtering a list of blank pieces leaves nothing. */
  lemma {:induction false} NonBlankOfBlanks(pieces: seq<string>)
    requires forall k :: 0 <= k < |pieces| ==> IsBlank(pieces[k])
    ensures NonBlank(pieces) == []
  {
    if pieces != [] {
      NonBlankOfBlanks(pieces[1..]);
    }
  }

  /** Every piece of a split of all-white-space text is all white space. */
  lemma {:induction false} BlankPieces(text: string, p: string)
    requires forall i :: 0 <= i < |text| ==> IsWhitespace(text[i])
    requires p in Split(text, PARAGRAPH_BREAK)
    ensures IsBlank(p)
    decreases |text|
  {
    BlankIffAllWhitespace(p);
    match IndexOf(text, PARAGRAPH_BREAK, 0)
    case None =>
    case Some(i) =>
      var rest := text[i + |PARAGRAPH_BREAK|..];
      if p != text[..i] {
        BlankPieces(rest, p);
      }
  }

  /** Dropping nothing: a list without blank pieces is kept whole. */
  lemma {:induction false} NonBlankKeepsAll(pieces: seq<string>)
    requires forall k :: 0 <= k < |pieces| ==> !IsBlank(pieces[k])
    ensures NonBlank(pieces) == pieces
  {
    if pieces != [] {
      NonBlankKeepsAll(pieces[1..]);
    }
  }

  /**
   * When no piece between blank lines is blank, the paragraphs rejoined with blank lines
   * give back the text: nothing is lost, reordered or altered.
   */
  lemma ParagraphsRejoin(text: string)
    requires forall k :: 0 <= k < |Split(text, PARAGRAPH_BREAK)| ==> !IsBlank(Split(text, PARAGRAPH_BREAK)[k])
    ensures Join(Paragraphs(text), PARAGRAPH_BREAK) == text
  {
    NonBlankKeepsAll(Split(text, PARAGRAPH_BREAK));
    JoinSplit(text, PARAGRAPH_BREAK);
  }

  /** s starts with one of the listed prefixes. */
  predicate StartsWithAny(s: string, prefixes: seq<string>)
  {
    exists k :: 0 <= k < |prefixes| && StartsWith(s, prefixes[k])
  }

  /** `isEmphasized`: only the first paragraph, only with the flag, only a listed opening. */
  predicate IsEmphasized(paragraph: string, index: int, emphasizeFirstIfQuestion: bool)
  {
    emphasizeFirstIfQuestion && index == 0 && StartsWithAny(paragraph, QUESTION_PREFIXES)
  }

  /** `isNumberedItem`: only with numbered styling on, and only a listed ordinal opening. */
  predicate IsNumberedItem(paragraph: string, useNumberedStyle: bool)
  {
    useNumberedStyle && StartsWithAny(paragraph, ORDINAL_PREFIXES)
  }

  /** The class every paragraph carries. */
  const PARAGRAPH_CLASS: string := "json-text-block-paragraph"

  /** The class of an emphasised paragraph. */
  const EMPHASIS_CLASS: string := "json-text-block-emphasis"

  /** The class of a numbered paragraph. */
  const NUMBERED_CLASS: string := "json-text-block-numbered"

  /** The class list of a paragraph, the two optional classes joined by spaces and trimmed. */
  function ParagraphClass(emphasized: bool, numbered: bool): string
  {
    Trim(PARAGRAPH_CLASS + " " + (if emphasized then EMPHASIS_CLASS else "") + " " +
         (if numbered then NUMBERED_CLASS else ""))
  }

  /** Neither class: the two trailing spaces are trimmed away. */
  lemma PlainParagraphClass()
    ensures ParagraphClass(false, false) == PARAGRAPH_CLASS
  {
    var s := PARAGRAPH_CLASS + " " + "" + " " + "";
    assert s == PARAGRAPH_CLASS + "  ";
    TrimStartNoop(s);
    TrimEndSpaces(PARAGRAPH_CLASS, "  ");
  }

  /** Emphasis alone: the one trailing space is trimmed away. */
  lemma EmphasizedParagraphClass()
    ensures ParagraphClass(true, false) == PARAGRAPH_CLASS + " " + EMPHASIS_CLASS
  {
    var t := PARAGRAPH_CLASS + " " + EMPHASIS_CLASS;
    assert t[|t| - 1] == EMPHASIS_CLASS[|EMPHASIS_CLASS| - 1];
    assert PARAGRAPH_CLASS + " " + EMPHASIS_CLASS + " " + "" == t + " ";
    TrimPadded(t, " ");
  }

  /**
   * Numbered alone: nothing is trimmed, so the empty emphasis slot leaves two spaces before
   * the numbered class.
   */
  lemma NumberedParagraphClass()
    ensures ParagraphClass(false, true) == PARAGRAPH_CLASS + "  " + NUMBERED_CLASS
  {
    var s := PARAGRAPH_CLASS + " " + "" + " " + NUMBERED_CLASS;
    assert s == PARAGRAPH_CLASS + "  " + NUMBERED_CLASS;
    TrimStartNoop(s);
    assert s[|s| - 1] == NUMBERED_CLASS[|NUMBERED_CLASS| - 1];
    assert s + "" == s;
    TrimEndSpaces(s, "");
  }

  /** Both classes, each after a single space. */
  lemma EmphasizedNumberedParagraphClass()
    ensures ParagraphClass(true, true) == PARAGRAPH_CLASS + " " + EMPHASIS_CLASS + " " + NUMBERED_CLASS
  {
    var s := PARAGRAPH_CLASS + " " + EMPHASIS_CLASS + " " + NUMBERED_CLASS;
    TrimStartNoop(s);
    assert s[|s| - 1] == NUMBERED_CLASS[|NUMBERED_CLASS| - 1];
    assert s + "" == s;
    TrimEndSpaces(s, "");
  }

  /** The class list of the container: the base class and the caller's class, trimmed. */
  function ContainerClass(className: string): string
  {
    Trim("json-text-block " + className)
  }

  /** A string with nothing to trim at its start is its own `TrimStart`. */
  lemma TrimStartNoop(s: string)
    requires s == [] || !IsWhitespace(s[0])
    ensures TrimStart(s) == s
  {
  }

  /** Trailing white space after a string with no white space at either end is trimmed off. */
  lemma TrimPadded(s: string, w: string)
    requires s != [] && !IsWhitespace(s[0]) && !IsWhitespace(s[|s| - 1])
    requires forall i :: 0 <= i < |w| ==> IsWhitespace(w[i])
    ensures Trim(s + w) == s
  {
    TrimStartNoop(s + w);
    TrimEndSpaces(s, w);
  }

  /** Appending only white space changes nothing `TrimEnd` keeps, and vice versa. */
  lemma {:induction false} TrimEndSpaces(s: string, w: string)
    requires s == [] || !IsWhitespace(s[|s| - 1])
    requires forall i :: 0 <= i < |w| ==> IsWhitespace(w[i])
    ensures TrimEnd(s + w) == s
    decreases |w|
  {
    if w != [] {
      var t := s + w;
      assert t[..|t| - 1] == s + w[..|w| - 1];
      TrimEndSpaces(s, w[..|w| - 1]);
    } else {
      assert s + w == s;
    }
  }

  /**
   * The container's class is the base class alone when the caller's class is blank, and the
   * base class, a space and the caller's class when that has no surrounding white space.
   */
  lemma ContainerClassShape(className: string)
    ensures IsBlank(className) ==> ContainerClass(className) == "json-text-block"
    ensures !IsBlank(className) && !IsWhitespace(className[0]) && !IsWhitespace(className[|className| - 1]) ==>
              ContainerClass(className) == "json-text-block " + className
  {
    var s := "json-text-block " + className;
    TrimStartNoop(s);
    BlankIffAllWhitespace(className);
    if IsBlank(className) {
      assert s == "json-text-block" + (" " + className);
      TrimEndSpaces("json-text-block", " " + className);
    } else if !IsWhitespace(className[0]) && !IsWhitespace(className[|className| - 1]) {
      assert s[|s| - 1] == className[|className| - 1];
      assert s + [] == s;
      TrimEndSpaces(s, []);
    }
  }

  /** One rendered paragraph: its text and its class list. */
  datatype Paragraph = Paragraph(text: string, className: string)

  /** The rendered block: the container's class list and its paragraphs in order. */
  datatype Block = Block(className: string, paragraphs: seq<Paragraph>)

  /**
   * `UnifiedTextBlock({text, emphasizeFirstIfQuestion, useNumberedStyle, className})`; the
   * component's defaults are false, true and the empty string.
   */
  function Render(text: string, emphasizeFirstIfQuestion: bool, useNumberedStyle: bool, className: string): (b: Block)
    ensures b.className == ContainerClass(className)
    ensures |b.paragraphs| == |Paragraphs(text)|
    ensures forall i :: 0 <= i < |b.paragraphs| ==>
              b.paragraphs[i].text == Paragraphs(text)[i] &&
              b.paragraphs[i].className ==
                ParagraphClass(IsEmphasized(Paragraphs(text)[i], i, emphasizeFirstIfQuestion),
                               IsNumberedItem(Paragraphs(text)[i], useNumberedStyle))
  {
    var paragraphs := Paragraphs(text);
    Block(ContainerClass(className), seq(|paragraphs|, i requires 0 <= i < |paragraphs| =>
      Paragraph(paragraphs[i], ParagraphClass(IsEmphasized(paragraphs[i], i, emphasizeFirstIfQuestion),
                                              IsNumberedItem(paragraphs[i], useNumberedStyle)))))
  }

  /** Emphasis never reaches a paragraph after the first, nor any paragraph without the flag. */
  lemma EmphasisOnlyFirst(text: string, emphasizeFirstIfQuestion: bool, useNumberedStyle: bool, className: string, i: nat)
    requires i < |Paragraphs(text)|
    requires i > 0 || !emphasizeFirstIfQuestion
    ensures var c := Render(text, emphasizeFirstIfQuestion, useNumberedStyle, className).paragraphs[i].className;
            c == PARAGRAPH_CLASS || c == PARAGRAPH_CLASS + "  " + NUMBERED_CLASS
  {
    var p := Paragraphs(text)[i];
    PlainParagraphClass();
    NumberedParagraphClass();
  }

  /** With numbered styling off no paragraph gets the numbered class. */
  lemma NumberedOnlyWhenEnabled(text: string, emphasizeFirstIfQuestion: bool, className: string, i: nat)
    requires i < |Paragraphs(text)|
    ensures var c := Render(text, emphasizeFirstIfQuestion, false, className).paragraphs[i].className;
            c == PARAGRAPH_CLASS || c == PARAGRAPH_CLASS + " " + EMPHASIS_CLASS
  {
    var p := Paragraphs(text)[i];
    PlainParagraphClass();
    EmphasizedParagraphClass();
  }
}
