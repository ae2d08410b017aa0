/** Writing objects as certdata text and reading them back. */
module CertdataText {
  import opened Common
  import opened Text
  import opened Certdata

  // ---- text of an object ----

  /** The octal digits of a byte, as written. */
  datatype Digits = Digits(text: string, byte: int)

  datatype Entry =
    | TextEntry(key: string, kind: string, text: string)
    | OctalEntry(key: string, lines: seq<seq<Digits>>)

  /** An attribute, after any number of lines that carry none. */
  datatype Line = Line(skipped: seq<string>, entry: Entry)

  /** An object: the text of its class, then its other attributes.  `gap` stands
      before it. */
  datatype Section = Section(gap: seq<string>, kind: string, classText: string, rest: seq<Line>)

  predicate IsWord(s: string) {
    s != "" && forall i :: 0 <= i < |s| ==> !IsSpace(s[i])
  }

  predicate IsText(s: string) {
    s != "" && !IsSpace(s[0]) && !IsSpace(s[|s| - 1])
  }

  predicate SpaceOnly(line: string) {
    forall i :: 0 <= i < |line| ==> IsSpace(line[i])
  }

  /** A comment, or one or two words that begin neither an object nor a block. */
  ghost predicate CarriesNothing(line: string) {
    || (line != "" && line[0] == '#')
    || (IsWord(line) && line != "CKA_CLASS")
    || (exists a, b :: line == a + " " + b && IsWord(a) && IsWord(b) && a != "CKA_CLASS" && b != "MULTILINE_OCTAL")
  }

  /** Written without space or backslash, and read as a byte. */
  predicate DigitsOk(oct: OctalReader, d: Digits) {
    && (forall i :: 0 <= i < |d.text| ==> !IsSpace(d.text[i]) && d.text[i] != '\\')
    && oct(d.text) == Some(d.byte) && 0 <= d.byte < 256
  }

  predicate AllDigitsOk(oct: OctalReader, ds: seq<Digits>) {
    forall i :: 0 <= i < |ds| ==> DigitsOk(oct, ds[i])
  }

  predicate EntryOk(oct: OctalReader, e: Entry) {
    && IsWord(e.key) && e.key[0] != '#' && e.key != "CKA_CLASS"
    && (e.TextEntry? ==> IsWord(e.kind) && e.kind != "MULTILINE_OCTAL" && IsText(e.text))
    && (e.OctalEntry? ==> forall i :: 0 <= i < |e.lines| ==> AllDigitsOk(oct, e.lines[i]))
  }

  ghost predicate LineOk(oct: OctalReader, l: Line) {
    (forall i :: 0 <= i < |l.skipped| ==> CarriesNothing(l.skipped[i])) && EntryOk(oct, l.entry)
  }

  ghost predicate SectionOk(oct: OctalReader, b: Section) {
    && (forall i :: 0 <= i < |b.gap| ==> SpaceOnly(b.gap[i]) || CarriesNothing(b.gap[i]))
    && IsWord(b.kind) && b.kind != "MULTILINE_OCTAL" && IsText(b.classText)
    && forall i :: 0 <= i < |b.rest| ==> LineOk(oct, b.rest[i])
  }

  function Words(key: string, kind: string, text: string): string {
    key + " " + kind + " " + text
  }

  /** One octal line: the digits of every byte behind a backslash. */
  function OctalText(ds: seq<Digits>): string {
    if ds == [] then "" else OctalText(ds[..|ds| - 1]) + "\\" + ds[|ds| - 1].text
  }

  function OctalTexts(lines: seq<seq<Digits>>): seq<string> {
    if lines == [] then [] else OctalTexts(lines[..|lines| - 1]) + [OctalText(lines[|lines| - 1])]
  }

  function EntryText(e: Entry): seq<string> {
    match e
    case TextEntry(key, kind, text) => [Words(key, kind, text)]
    case OctalEntry(key, lines) => [key + " MULTILINE_OCTAL"] + OctalTexts(lines) + ["END"]
  }

  function RestText(rest: seq<Line>): seq<string> {
    if rest == [] then []
    else RestText(rest[..|rest| - 1]) + (rest[|rest| - 1].skipped + EntryText(rest[|rest| - 1].entry))
  }

  function SectionText(b: Section): seq<string> {
    b.gap + ([Words("CKA_CLASS", b.kind, b.classText)] + RestText(b.rest))
  }

  function FileText(sections: seq<Section>): seq<string> {
    if sections == [] then [] else FileText(sections[..|sections| - 1]) + SectionText(sections[|sections| - 1])
  }

  // ---- what it stands for ----

  function BytesIn(ds: seq<Digits>): (r: Bytes)
    ensures |r| == |ds|
  {
    seq(|ds|, i requires 0 <= i < |ds| => ds[i].byte)
  }

  /** The bytes of a block, line after line. */
  function AllBytes(lines: seq<seq<Digits>>): Bytes {
    if lines == [] then [] else AllBytes(lines[..|lines| - 1]) + BytesIn(lines[|lines| - 1])
  }

  function ValueOf(e: Entry): Attribute {
    match e
    case TextEntry(_, _, text) => Word(text)
    case OctalEntry(_, lines) => Blob(AllBytes(lines))
  }

  /** Of several attributes with one name the last counts. */
  function ObjectOf(classText: string, rest: seq<Line>): Object {
    if rest == [] then map["CKA_CLASS" := Word(classText)]
    else ObjectOf(classText, rest[..|rest| - 1])[rest[|rest| - 1].entry.key := ValueOf(rest[|rest| - 1].entry)]
  }

  function ObjectsOf(sections: seq<Section>): seq<Object> {
    if sections == [] then []
    else ObjectsOf(sections[..|sections| - 1]) + [ObjectOf(sections[|sections| - 1].classText, sections[|sections| - 1].rest)]
  }

  // ---- splitting written lines ----

  lemma StripText(s: string)
    requires IsText(s)
    ensures Strip(s) == s
  {
  }

  lemma {:induction false} StripSpaceOnly(s: string)
    requires SpaceOnly(s)
    ensures Strip(s) == ""
  {
    if s != "" {
      StripSpaceOnly(s[1..]);
    }
  }

  lemma {:induction false} WordBefore(w: string, rest: string)
    requires IsWord(w) && (rest == "" || IsSpace(rest[0]))
    ensures WordLength(w + rest) == |w|
  {
    if |w| == 1 {
      assert (w + rest)[1..] == rest;
    } else {
      assert (w + rest)[1..] == w[1..] + rest;
      WordBefore(w[1..], rest);
    }
  }

  lemma AfterSpace(s: string)
    requires s != "" && !IsSpace(s[0])
    ensures LStrip(" " + s) == s
  {
    assert (" " + s)[1..] == s;
  }

  lemma SplitTwo(key: string, rest: string)
    requires IsWord(key) && rest != "" && !IsSpace(rest[0])
    ensures var line := key + " " + rest;
            line[..WordLength(line)] == key && LStrip(line[WordLength(line)..]) == rest
  {
    var line := key + " " + rest;
    assert line == key + (" " + rest);
    WordBefore(key, " " + rest);
    assert line[|key|..] == " " + rest;
    AfterSpace(rest);
  }

  lemma PartsFrom(line: string, key: string, rest: string)
    requires line[..WordLength(line)] == key && LStrip(line[WordLength(line)..]) == rest && rest != ""
    ensures var second, third := rest[..WordLength(rest)], LStrip(rest[WordLength(rest)..]);
            Parts(line) == if third == "" then [key, second] else [key, second, third]
  {
  }

  lemma WordsSplit(key: string, kind: string, text: string)
    requires IsWord(key) && IsWord(kind) && IsText(text)
    ensures Strip(Words(key, kind, text)) == Words(key, kind, text)
    ensures Parts(Words(key, kind, text)) == [key, kind, text]
  {
    var line, rest := Words(key, kind, text), kind + " " + text;
    assert line == key + " " + rest;
    SplitTwo(key, rest);
    SplitTwo(kind, text);
    PartsFrom(line, key, rest);
    assert IsText(line) by {
      assert line[|line| - 1] == text[|text| - 1] && line[0] == key[0];
    }
    StripText(line);
  }

  lemma TwoWordsSplit(a: string, b: string)
    requires IsWord(a) && IsWord(b)
    ensures Strip(a + " " + b) == a + " " + b && Parts(a + " " + b) == [a, b]
  {
    var line := a + " " + b;
    SplitTwo(a, b);
    LastWord(b);
    PartsFrom(line, a, b);
    assert IsText(line) by {
      assert line[|line| - 1] == b[|b| - 1] && line[0] == a[0];
    }
    StripText(line);
  }

  lemma BlockStartSplit(key: string)
    requires IsWord(key)
    ensures Strip(key + " MULTILINE_OCTAL") == key + " MULTILINE_OCTAL"
    ensures Parts(key + " MULTILINE_OCTAL") == [key, "MULTILINE_OCTAL"]
  {
    TwoWordsSplit(key, "MULTILINE_OCTAL");
    assert key + " MULTILINE_OCTAL" == key + " " + "MULTILINE_OCTAL";
  }

  lemma LastWord(w: string)
    requires IsWord(w)
    ensures w[..WordLength(w)] == w && LStrip(w[WordLength(w)..]) == ""
  {
    WordBefore(w, "");
    assert w + "" == w;
  }

  lemma OneWordSplit(w: string)
    requires IsWord(w)
    ensures Strip(w) == w && Parts(w) == [w]
  {
    StripText(w);
    WordBefore(w, "");
    assert w + "" == w;
  }

  lemma {:induction false} RStripKeepsFirst(s: string)
    requires s != "" && !IsSpace(s[0])
    ensures RStrip(s) != "" && RStrip(s)[0] == s[0]
  {
    if IsSpace(s[|s| - 1]) {
      RStripKeepsFirst(s[..|s| - 1]);
    }
  }

  // ---- reading single lines ----

  lemma CommentLine(oct: OctalReader, r: Reader, line: string)
    requires r.Reader? && r.mode == Outside && line != "" && line[0] == '#'
    ensures ReadLine(oct, r, line) == r
  {
    RStripKeepsFirst(line);
    assert Strip(line)[0] == '#';
  }

  /** A line without a third word and without an octal block, read as words. */
  lemma ShortLine(oct: OctalReader, r: Reader, line: string, words: seq<string>)
    requires r.Reader? && r.mode == Outside && line != "" && Strip(line) == line && Parts(line) == words
    requires words[0] != "CKA_CLASS" && (|words| == 1 || (|words| == 2 && words[1] != "MULTILINE_OCTAL"))
    ensures ReadLine(oct, r, line) == r
  {
  }

  lemma SkippedLine(oct: OctalReader, objs: seq<Object>, cur: Object, line: string)
    requires CarriesNothing(line)
    ensures ReadLine(oct, Reader(objs, cur, Outside), line) == Reader(objs, cur, Outside)
  {
    var r := Reader(objs, cur, Outside);
    if line != "" && line[0] == '#' {
      CommentLine(oct, r, line);
    } else if IsWord(line) && line != "CKA_CLASS" {
      OneWordSplit(line);
      ShortLine(oct, r, line, [line]);
    } else {
      var a, b :| line == a + " " + b && IsWord(a) && IsWord(b) && a != "CKA_CLASS" && b != "MULTILINE_OCTAL";
      TwoWordsSplit(a, b);
      ShortLine(oct, r, line, [a, b]);
    }
  }

  lemma SpaceLine(oct: OctalReader, r: Reader, line: string)
    requires r.Reader? && r.mode == Outside && SpaceOnly(line)
    ensures ReadLine(oct, r, line) == Close(r)
  {
    StripSpaceOnly(line);
  }

  lemma AttributeRead(oct: OctalReader, r: Reader, key: string, kind: string, text: string)
    requires r.Reader? && r.mode == Outside && IsWord(key) && key[0] != '#'
    requires IsWord(kind) && kind != "MULTILINE_OCTAL" && IsText(text)
    ensures var q := if key == "CKA_CLASS" then Close(r) else r;
            ReadLine(oct, r, Words(key, kind, text)) == q.(cur := q.cur[key := Word(text)])
  {
    WordsSplit(key, kind, text);
    assert Words(key, kind, text)[0] == key[0];
  }

  lemma ClassLine(oct: OctalReader, r: Reader, kind: string, text: string)
    requires r.Reader? && r.mode == Outside && IsWord(kind) && kind != "MULTILINE_OCTAL" && IsText(text)
    ensures ReadLine(oct, r, Words("CKA_CLASS", kind, text)) == Reader(Close(r).objs, map["CKA_CLASS" := Word(text)], Outside)
  {
    AttributeRead(oct, r, "CKA_CLASS", kind, text);
  }

  lemma TextLine(oct: OctalReader, objs: seq<Object>, cur: Object, e: Entry)
    requires EntryOk(oct, e) && e.TextEntry?
    ensures ReadLine(oct, Reader(objs, cur, Outside), Words(e.key, e.kind, e.text)) == Reader(objs, cur[e.key := Word(e.text)], Outside)
  {
    AttributeRead(oct, Reader(objs, cur, Outside), e.key, e.kind, e.text);
  }

  lemma BlockStart(oct: OctalReader, objs: seq<Object>, cur: Object, key: string)
    requires IsWord(key) && key[0] != '#' && key != "CKA_CLASS"
    ensures ReadLine(oct, Reader(objs, cur, Outside), key + " MULTILINE_OCTAL") == Reader(objs, cur, InOctal(key, []))
  {
    BlockStartSplit(key);
    assert (key + " MULTILINE_OCTAL")[0] == key[0];
  }

  // ---- octal lines ----

  lemma {:induction false} PieceAppended(s: string, p: string)
    requires forall i :: 0 <= i < |p| ==> p[i] != '\\'
    ensures OctalPieces(s + "\\" + p) == OctalPieces(s) + [p]
  {
    var t := s + "\\" + p;
    if p == "" {
      assert t == s + "\\" && t[..|t| - 1] == s;
    } else {
      var n := |p| - 1;
      PieceAppended(s, p[..n]);
      assert t[..|t| - 1] == s + "\\" + p[..n] && t[|t| - 1] == p[n];
      assert p == p[..n] + [p[n]];
    }
  }

  function Texts(ds: seq<Digits>): (r: seq<string>)
    ensures |r| == |ds|
  {
    seq(|ds|, i requires 0 <= i < |ds| => ds[i].text)
  }

  lemma {:induction false} OctalTextSplit(oct: OctalReader, ds: seq<Digits>)
    requires AllDigitsOk(oct, ds)
    ensures OctalPieces(OctalText(ds)) == Texts(ds)
    ensures OctalText(ds) == "" || (OctalText(ds)[0] == '\\' && !IsSpace(OctalText(ds)[|OctalText(ds)| - 1]))
  {
    if ds != [] {
      var n := |ds| - 1;
      OctalTextSplit(oct, ds[..n]);
      PieceAppended(OctalText(ds[..n]), ds[n].text);
      assert Texts(ds) == Texts(ds[..n]) + [ds[n].text];
    }
  }

  lemma {:induction false} TextsRead(oct: OctalReader, ds: seq<Digits>)
    requires AllDigitsOk(oct, ds)
    ensures BytesOf(oct, Texts(ds)) == Some(BytesIn(ds))
  {
    if ds != [] {
      var n := |ds| - 1;
      TextsRead(oct, ds[..n]);
      assert Texts(ds)[..n] == Texts(ds[..n]) && BytesIn(ds) == BytesIn(ds[..n]) + [ds[n].byte];
    }
  }

  lemma OctalLine(oct: OctalReader, objs: seq<Object>, cur: Object, key: string, buf: Bytes, ds: seq<Digits>)
    requires AllDigitsOk(oct, ds)
    ensures ReadLine(oct, Reader(objs, cur, InOctal(key, buf)), OctalText(ds)) == Reader(objs, cur, InOctal(key, buf + BytesIn(ds)))
  {
    OctalTextSplit(oct, ds);
    TextsRead(oct, ds);
    if OctalText(ds) == "" {
      assert Strip(OctalText(ds)) == "";
    } else {
      StripText(OctalText(ds));
    }
  }

  lemma {:induction false} OctalLines(oct: OctalReader, objs: seq<Object>, cur: Object, key: string, lines: seq<seq<Digits>>)
    requires forall i :: 0 <= i < |lines| ==> AllDigitsOk(oct, lines[i])
    ensures ReadLines(oct, Reader(objs, cur, InOctal(key, [])), OctalTexts(lines)) == Reader(objs, cur, InOctal(key, AllBytes(lines)))
  {
    if lines != [] {
      var n := |lines| - 1;
      OctalLines(oct, objs, cur, key, lines[..n]);
      OctalLine(oct, objs, cur, key, AllBytes(lines[..n]), lines[n]);
    }
  }

  lemma EndLine(oct: OctalReader, objs: seq<Object>, cur: Object, key: string, buf: Bytes)
    ensures ReadLine(oct, Reader(objs, cur, InOctal(key, buf)), "END") == Reader(objs, cur[key := Blob(buf)], Outside)
  {
    StripText("END");
  }

  // ---- reading an object ----

  lemma ReadOne(oct: OctalReader, r: Reader, line: string)
    ensures ReadLines(oct, r, [line]) == ReadLine(oct, r, line)
  {
    assert [line][..0] == [];
  }

  lemma EntryRead(oct: OctalReader, objs: seq<Object>, cur: Object, e: Entry)
    requires EntryOk(oct, e)
    ensures ReadLines(oct, Reader(objs, cur, Outside), EntryText(e)) == Reader(objs, cur[e.key := ValueOf(e)], Outside)
  {
    var r := Reader(objs, cur, Outside);
    match e
    case TextEntry(key, kind, text) =>
      ReadOne(oct, r, Words(key, kind, text));
      TextLine(oct, objs, cur, e);
    case OctalEntry(key, lines) =>
      var start, body := [key + " MULTILINE_OCTAL"], OctalTexts(lines);
      ReadLinesAppend(oct, r, start + body, ["END"]);
      ReadLinesAppend(oct, r, start, body);
      ReadOne(oct, r, key + " MULTILINE_OCTAL");
      BlockStart(oct, objs, cur, key);
      OctalLines(oct, objs, cur, key, lines);
      ReadOne(oct, Reader(objs, cur, InOctal(key, AllBytes(lines))), "END");
      EndLine(oct, objs, cur, key, AllBytes(lines));
  }

  lemma {:induction false} SkippedRead(oct: OctalReader, objs: seq<Object>, cur: Object, lines: seq<string>)
    requires forall i :: 0 <= i < |lines| ==> CarriesNothing(lines[i])
    ensures ReadLines(oct, Reader(objs, cur, Outside), lines) == Reader(objs, cur, Outside)
  {
    if lines != [] {
      var n := |lines| - 1;
      SkippedRead(oct, objs, cur, lines[..n]);
      SkippedLine(oct, objs, cur, lines[n]);
    }
  }

  lemma {:induction false} RestRead(oct: OctalReader, objs: seq<Object>, classText: string, rest: seq<Line>)
    requires forall i :: 0 <= i < |rest| ==> LineOk(oct, rest[i])
    ensures ReadLines(oct, Reader(objs, map["CKA_CLASS" := Word(classText)], Outside), RestText(rest)) ==
            Reader(objs, ObjectOf(classText, rest), Outside)
  {
    if rest != [] {
      var n := |rest| - 1;
      var start, cur := Reader(objs, map["CKA_CLASS" := Word(classText)], Outside), ObjectOf(classText, rest[..n]);
      RestRead(oct, objs, classText, rest[..n]);
      ReadLinesAppend(oct, start, RestText(rest[..n]), rest[n].skipped + EntryText(rest[n].entry));
      ReadLinesAppend(oct, Reader(objs, cur, Outside), rest[n].skipped, EntryText(rest[n].entry));
      SkippedRead(oct, objs, cur, rest[n].skipped);
      EntryRead(oct, objs, cur, rest[n].entry);
    }
  }

  /** Lines between objects close the open one, if at all. */
  lemma {:induction false} GapRead(oct: OctalReader, r: Reader, gap: seq<string>)
    requires r.Reader? && r.mode == Outside
    requires forall i :: 0 <= i < |gap| ==> SpaceOnly(gap[i]) || CarriesNothing(gap[i])
    ensures var q := ReadLines(oct, r, gap); q == r || q == Close(r)
  {
    if gap != [] {
      var n := |gap| - 1;
      GapRead(oct, r, gap[..n]);
      var q := ReadLines(oct, r, gap[..n]);
      if SpaceOnly(gap[n]) {
        SpaceLine(oct, q, gap[n]);
      } else {
        SkippedLine(oct, q.objs, q.cur, gap[n]);
      }
    }
  }

  lemma SectionRead(oct: OctalReader, r: Reader, b: Section)
    requires r.Reader? && r.mode == Outside && SectionOk(oct, b)
    ensures ReadLines(oct, r, SectionText(b)) == Reader(Close(r).objs, ObjectOf(b.classText, b.rest), Outside)
  {
    var first := Words("CKA_CLASS", b.kind, b.classText);
    ReadLinesAppend(oct, r, b.gap, [first] + RestText(b.rest));
    GapRead(oct, r, b.gap);
    var q := ReadLines(oct, r, b.gap);
    assert Close(Close(r)) == Close(r);
    ReadLinesAppend(oct, q, [first], RestText(b.rest));
    ReadOne(oct, q, first);
    ClassLine(oct, q, b.kind, b.classText);
    RestRead(oct, Close(q).objs, b.classText, b.rest);
  }

  lemma {:induction false} ObjectNotEmpty(classText: string, rest: seq<Line>)
    ensures ObjectOf(classText, rest) != map[]
  {
    if rest != [] {
      assert rest[|rest| - 1].entry.key in ObjectOf(classText, rest);
    } else {
      assert "CKA_CLASS" in ObjectOf(classText, rest);
    }
  }

  lemma {:induction false} SectionsRead(oct: OctalReader, sections: seq<Section>)
    requires forall i :: 0 <= i < |sections| ==> SectionOk(oct, sections[i])
    ensures var r := ReadLines(oct, START, FileText(sections));
            r.Reader? && r.mode == Outside && Close(r) == Reader(ObjectsOf(sections), map[], Outside)
  {
    if sections != [] {
      var n := |sections| - 1;
      var r := ReadLines(oct, START, FileText(sections[..n]));
      SectionsRead(oct, sections[..n]);
      ReadLinesAppend(oct, START, FileText(sections[..n]), SectionText(sections[n]));
      SectionRead(oct, r, sections[n]);
      ObjectNotEmpty(sections[n].classText, sections[n].rest);
    }
  }

  /** Text written for any list of objects reads back as exactly those objects,
      with or without blank lines between them, whatever comments and words
      without a value stand around their attributes. */
  lemma WrittenReadsBack(oct: OctalReader, sections: seq<Section>, end: seq<string>)
    requires forall i :: 0 <= i < |sections| ==> SectionOk(oct, sections[i])
    requires forall i :: 0 <= i < |end| ==> SpaceOnly(end[i]) || CarriesNothing(end[i])
    ensures Parse(oct, FileText(sections) + end) == Objects(ObjectsOf(sections))
  {
    var r := ReadLines(oct, START, FileText(sections));
    SectionsRead(oct, sections);
    ReadLinesAppend(oct, START, FileText(sections), end);
    GapRead(oct, r, end);
    assert Close(Close(r)) == Close(r);
  }
}
