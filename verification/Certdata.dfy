/** Mozilla's certdata.txt: objects of attributes, some of them octal blocks
    over several lines, and the e-mail roots selected from them. */
module Certdata {
  import opened Common
  import opened Text

  type Bytes = seq<int>

  datatype Attribute = Word(text: string) | Blob(bytes: Bytes)

  type Object = map<string, Attribute>

  /** `int(o, 8)`: the number, or a ValueError. */
  type OctalReader = string -> Option<int>

  datatype Parsed = Objects(objs: seq<Object>) | ValueError | IndexError

  // ---- splitting a line ----

  function WordLength(s: string): (n: nat)
    ensures n <= |s|
  {
    if s == "" || IsSpace(s[0]) then 0 else 1 + WordLength(s[1..])
  }

  /** `line.split(None, 2)` of a stripped line that is not empty. */
  function Parts(line: string): (r: seq<string>)
    ensures 1 <= |r| <= 3
  {
    var first := line[..WordLength(line)];
    var rest := LStrip(line[WordLength(line)..]);
    if rest == "" then [first]
    else
      var second := rest[..WordLength(rest)];
      var third := LStrip(rest[WordLength(rest)..]);
      if third == "" then [first, second] else [first, second, third]
  }

  /** `s.split("\\")[1:]`: the pieces after each backslash. */
  function OctalPieces(s: string): seq<string> {
    if s == "" then []
    else
      var front := OctalPieces(s[..|s| - 1]);
      var c := s[|s| - 1];
      if c == '\\' then front + [""]
      else if front == [] then []
      else front[|front| - 1 := front[|front| - 1] + [c]]
  }

  function ByteOf(oct: OctalReader, piece: string): Option<int> {
    var v := oct(piece);
    if v.Some? && 0 <= v.value < 256 then v else None
  }

  function BytesOf(oct: OctalReader, pieces: seq<string>): Option<Bytes> {
    if pieces == [] then Some([])
    else
      var n := |pieces| - 1;
      match (BytesOf(oct, pieces[..n]), ByteOf(oct, pieces[n]))
      case (Some(front), Some(b)) => Some(front + [b])
      case _ => None
  }

  method ReadOctalLine(oct: OctalReader, line: string) returns (r: Option<Bytes>)
    ensures r == BytesOf(oct, OctalPieces(Strip(line)))
  {
    var pieces := OctalPieces(Strip(line));
    var buf: Bytes := [];
    for i := 0 to |pieces|
      invariant Some(buf) == BytesOf(oct, pieces[..i])
    {
      assert pieces[..i + 1][..i] == pieces[..i];
      var b := ByteOf(oct, pieces[i]);
      if b.None? {
        NoBytes(oct, pieces, i + 1);
        return None;
      }
      buf := buf + [b.value];
    }
    assert pieces[..|pieces|] == pieces;
    r := Some(buf);
  }

  lemma {:induction false} NoBytes(oct: OctalReader, pieces: seq<string>, n: nat)
    requires n <= |pieces| && BytesOf(oct, pieces[..n]).None?
    ensures BytesOf(oct, pieces).None?
    decreases |pieces|
  {
    if n < |pieces| {
      var k := |pieces| - 1;
      assert pieces[..k][..n] == pieces[..n];
      NoBytes(oct, pieces[..k], n);
    } else {
      assert pieces[..n] == pieces;
    }
  }

  // ---- the reader as a line automaton ----

  datatype Mode = Outside | InOctal(key: string, buf: Bytes)

  /** `cur` is the open object; an empty one is as good as none. */
  datatype Reader = Reader(objs: seq<Object>, cur: Object, mode: Mode) | Failed

  const START := Reader([], map[], Outside)

  function Close(r: Reader): Reader
    requires r.Reader?
  {
    if r.cur == map[] then r else r.(objs := r.objs + [r.cur], cur := map[])
  }

  predicate IsComment(line: string) {
    line != "" && line[0] == '#'
  }

  function AttributeLine(r: Reader, line: string): Reader
    requires r.Reader?
  {
    var parts := Parts(line);
    var q := if parts[0] == "CKA_CLASS" then Close(r) else r;
    if |parts| >= 2 && parts[1] == "MULTILINE_OCTAL" then q.(mode := InOctal(parts[0], []))
    else if |parts| == 3 then q.(cur := q.cur[parts[0] := Word(parts[2])])
    else q
  }

  function ReadLine(oct: OctalReader, r: Reader, raw: string): Reader {
    if r.Failed? then r
    else
      var line := Strip(raw);
      match r.mode
      case InOctal(key, buf) =>
        if line == "END" then r.(cur := r.cur[key := Blob(buf)], mode := Outside)
        else (match BytesOf(oct, OctalPieces(line))
              case None => Failed
              case Some(more) => r.(mode := InOctal(key, buf + more)))
      case Outside =>
        if line == "" then Close(r) else if IsComment(line) then r else AttributeLine(r, line)
  }

  function ReadLines(oct: OctalReader, r: Reader, lines: seq<string>): Reader {
    if lines == [] then r else ReadLine(oct, ReadLines(oct, r, lines[..|lines| - 1]), lines[|lines| - 1])
  }

  /** What is left when the lines run out. */
  function Finish(r: Reader): Parsed {
    if r.Failed? then ValueError
    else if r.mode.InOctal? then IndexError
    else Objects(Close(r).objs)
  }

  function Parse(oct: OctalReader, lines: seq<string>): Parsed {
    Finish(ReadLines(oct, START, lines))
  }

  lemma {:induction false} FailedStays(oct: OctalReader, r: Reader, lines: seq<string>, n: nat)
    requires n <= |lines| && ReadLines(oct, r, lines[..n]).Failed?
    ensures ReadLines(oct, r, lines).Failed?
    decreases |lines|
  {
    if n < |lines| {
      var k := |lines| - 1;
      assert lines[..k][..n] == lines[..n];
      FailedStays(oct, r, lines[..k], n);
    } else {
      assert lines[..n] == lines;
    }
  }

  function OrEmpty(cur: Option<Object>): Object {
    if cur.None? then map[] else cur.value
  }

  /** One line outside octal blocks. */
  lemma TopLine(oct: OctalReader, lines: seq<string>, i: nat, objs: seq<Object>, cur: Object)
    requires i < |lines| && ReadLines(oct, START, lines[..i]) == Reader(objs, cur, Outside)
    ensures var line, was, now := Strip(lines[i]), Reader(objs, cur, Outside), ReadLines(oct, START, lines[..i + 1]);
            now == if line == "" then Close(was) else if IsComment(line) then was else AttributeLine(was, line)
  {
    assert lines[..i + 1][..i] == lines[..i];
  }

  /** The index-driven parser with its nested octal loop. */
  method ParseObjects(oct: OctalReader, lines: seq<string>) returns (r: Parsed)
    ensures r == Parse(oct, lines)
  {
    var objs: seq<Object> := [];
    var cur: Option<Object> := None;
    var i := 0;
    while i < |lines|
      invariant 0 <= i <= |lines|
      invariant ReadLines(oct, START, lines[..i]) == Reader(objs, OrEmpty(cur), Outside)
    {
      TopLine(oct, lines, i, objs, OrEmpty(cur));
      var line := Strip(lines[i]);
      i := i + 1;
      if line == "" || IsComment(line) {
        if line == "" && OrEmpty(cur) != map[] {
          objs := objs + [cur.value];
          cur := None;
        }
        continue;
      }
      var parts := Parts(line);
      if parts[0] == "CKA_CLASS" && OrEmpty(cur) != map[] {
        objs := objs + [cur.value];
        cur := None;
      }
      if cur.None? {
        cur := Some(map[]);
      }
      if |parts| >= 2 && parts[1] == "MULTILINE_OCTAL" {
        BlockReads(oct, lines, i, objs, cur.value, parts[0], []);
        var ok, end, buf := ReadBlock(oct, lines, i);
        if ok != Outcome.Block {
          return if ok == Outcome.RanOut then IndexError else ValueError;
        }
        i := end;
        cur := Some(cur.value[parts[0] := Blob(buf)]);
      } else if |parts| == 3 {
        cur := Some(cur.value[parts[0] := Word(parts[2])]);
      }
    }
    assert lines[..i] == lines;
    if OrEmpty(cur) != map[] {
      objs := objs + [cur.value];
    }
    r := Objects(objs);
  }

  datatype Outcome = Block | RanOut | BadOctal

  lemma BlockEnd(oct: OctalReader, lines: seq<string>, i: nat, objs: seq<Object>, cur: Object, key: string, buf: Bytes)
    requires i < |lines| && ReadLines(oct, START, lines[..i]) == Reader(objs, cur, InOctal(key, buf))
    requires Strip(lines[i]) == "END"
    ensures ReadLines(oct, START, lines[..i + 1]) == Reader(objs, cur[key := Blob(buf)], Outside)
  {
    assert lines[..i + 1][..i] == lines[..i];
  }

  /** One octal line inside a block. */
  lemma BlockLine(oct: OctalReader, lines: seq<string>, i: nat, objs: seq<Object>, cur: Object, key: string, buf: Bytes, more: Option<Bytes>)
    requires i < |lines| && ReadLines(oct, START, lines[..i]) == Reader(objs, cur, InOctal(key, buf))
    requires Strip(lines[i]) != "END" && more == BytesOf(oct, OctalPieces(Strip(lines[i])))
    ensures more.None? ==> Parse(oct, lines) == ValueError
    ensures more.Some? ==> ReadLines(oct, START, lines[..i + 1]) == Reader(objs, cur, InOctal(key, buf + more.value))
  {
    assert lines[..i + 1][..i] == lines[..i];
    if ReadLines(oct, START, lines[..i + 1]).Failed? {
      FailedStays(oct, START, lines, i + 1);
    }
  }

  lemma RunningOut(oct: OctalReader, lines: seq<string>, objs: seq<Object>, cur: Object, key: string, buf: Bytes)
    requires ReadLines(oct, START, lines[..|lines|]) == Reader(objs, cur, InOctal(key, buf))
    ensures Parse(oct, lines) == IndexError
  {
    assert lines[..|lines|] == lines;
  }

  /** Where a block ends when reading goes on at line i with `buf` collected. */
  function BlockFrom(oct: OctalReader, lines: seq<string>, i: nat, buf: Bytes): (r: (Outcome, nat, Bytes))
    requires i <= |lines|
    ensures i <= r.1 <= |lines|
    decreases |lines| - i
  {
    if i == |lines| then (RanOut, i, buf)
    else if Strip(lines[i]) == "END" then (Block, i + 1, buf)
    else
      match BytesOf(oct, OctalPieces(Strip(lines[i])))
      case None => (BadOctal, i, buf)
      case Some(more) => BlockFrom(oct, lines, i + 1, buf + more)
  }

  lemma {:induction false} BlockReads(oct: OctalReader, lines: seq<string>, i: nat, objs: seq<Object>, cur: Object, key: string, buf: Bytes)
    requires i <= |lines| && ReadLines(oct, START, lines[..i]) == Reader(objs, cur, InOctal(key, buf))
    ensures var (ok, end, all) := BlockFrom(oct, lines, i, buf);
            && (ok == Block ==> ReadLines(oct, START, lines[..end]) == Reader(objs, cur[key := Blob(all)], Outside))
            && (ok == RanOut ==> Parse(oct, lines) == IndexError)
            && (ok == BadOctal ==> Parse(oct, lines) == ValueError)
    decreases |lines| - i
  {
    if i == |lines| {
      RunningOut(oct, lines, objs, cur, key, buf);
    } else if Strip(lines[i]) == "END" {
      BlockEnd(oct, lines, i, objs, cur, key, buf);
    } else {
      var more := BytesOf(oct, OctalPieces(Strip(lines[i])));
      BlockLine(oct, lines, i, objs, cur, key, buf, more);
      if more.Some? {
        BlockReads(oct, lines, i + 1, objs, cur, key, buf + more.value);
      }
    }
  }

  /** The nested loop: octal lines from `start` up to and including END. */
  method ReadBlock(oct: OctalReader, lines: seq<string>, start: nat) returns (ok: Outcome, end: nat, buf: Bytes)
    requires start <= |lines|
    ensures (ok, end, buf) == BlockFrom(oct, lines, start, [])
  {
    buf := [];
    var i := start;
    while i < |lines| && Strip(lines[i]) != "END"
      invariant start <= i <= |lines|
      invariant BlockFrom(oct, lines, i, buf) == BlockFrom(oct, lines, start, [])
    {
      var more := ReadOctalLine(oct, lines[i]);
      if more.None? {
        return BadOctal, i, buf;
      }
      buf := buf + more.value;
      i := i + 1;
    }
    if i == |lines| {
      return RanOut, i, buf;
    }
    return Block, i + 1, buf;
  }

  // ---- the parser is compositional ----

  lemma {:induction false} ReadLinesAppend(oct: OctalReader, r: Reader, a: seq<string>, b: seq<string>)
    ensures ReadLines(oct, r, a + b) == ReadLines(oct, ReadLines(oct, r, a), b)
  {
    if b == [] {
      assert a + b == a;
    } else {
      var n := |b| - 1;
      assert (a + b)[..|a + b| - 1] == a + b[..n];
      ReadLinesAppend(oct, r, a, b[..n]);
    }
  }

  /** Objects already read do not influence the rest. */
  function Behind(objs: seq<Object>, r: Reader): Reader {
    if r.Failed? then r else r.(objs := objs + r.objs)
  }

  lemma ReadLineBehind(oct: OctalReader, objs: seq<Object>, r: Reader, line: string)
    ensures ReadLine(oct, Behind(objs, r), line) == Behind(objs, ReadLine(oct, r, line))
  {
    if r.Reader? {
      assert objs + (r.objs + [r.cur]) == (objs + r.objs) + [r.cur];
    }
  }

  lemma {:induction false} ReadLinesBehind(oct: OctalReader, objs: seq<Object>, r: Reader, lines: seq<string>)
    ensures ReadLines(oct, Behind(objs, r), lines) == Behind(objs, ReadLines(oct, r, lines))
  {
    if lines != [] {
      var n := |lines| - 1;
      ReadLinesBehind(oct, objs, r, lines[..n]);
      ReadLineBehind(oct, objs, ReadLines(oct, r, lines[..n]), lines[n]);
    }
  }

  /** Results in sequence; the first error wins. */
  function Then(x: Parsed, y: Parsed): Parsed {
    if !x.Objects? then x else if !y.Objects? then y else Objects(x.objs + y.objs)
  }

  lemma FinishBehind(objs: seq<Object>, r: Reader)
    ensures Finish(Behind(objs, r)) == Then(Objects(objs), Finish(r))
  {
    if r.Reader? {
      assert objs + (r.objs + [r.cur]) == (objs + r.objs) + [r.cur];
    }
  }

  lemma AfterBlank(oct: OctalReader, a: seq<string>, blank: string, b: seq<string>)
    ensures ReadLines(oct, START, a + [blank] + b) ==
            ReadLines(oct, ReadLine(oct, ReadLines(oct, START, a), blank), b)
  {
    ReadLinesAppend(oct, START, a + [blank], b);
    assert (a + [blank])[..|a|] == a;
  }

  /** Two files with a blank line between them parse like the two files one
      after the other, errors included, unless the first ends inside an octal
      block. */
  lemma ParseComposes(oct: OctalReader, a: seq<string>, blank: string, b: seq<string>)
    requires Strip(blank) == "" && Parse(oct, a) != IndexError
    ensures Parse(oct, a + [blank] + b) == Then(Parse(oct, a), Parse(oct, b))
  {
    var r := ReadLines(oct, START, a);
    AfterBlank(oct, a, blank, b);
    if r.Failed? {
      assert (a + [blank] + b)[..|a|] == a;
      FailedStays(oct, START, a + [blank] + b, |a|);
    } else {
      var objs := Close(r).objs;
      assert ReadLine(oct, r, blank) == Behind(objs, START);
      ReadLinesBehind(oct, objs, START, b);
      FinishBehind(objs, ReadLines(oct, START, b));
    }
  }

  // ---- selecting the e-mail roots ----

  predicate Is(o: Object, key: string, text: string) {
    key in o && o[key] == Word(text)
  }

  predicate HasBlob(o: Object, key: string) {
    key in o && o[key].Blob?
  }

  predicate Named(o: Object) {
    HasBlob(o, "CKA_ISSUER") && HasBlob(o, "CKA_SERIAL_NUMBER")
  }

  function NameOf(o: Object): (Bytes, Bytes)
    requires Named(o)
  {
    (o["CKA_ISSUER"].bytes, o["CKA_SERIAL_NUMBER"].bytes)
  }

  /** A trust record that makes its root a delegator for e-mail. */
  predicate Delegates(o: Object) {
    Is(o, "CKA_CLASS", "CKO_NSS_TRUST") && Is(o, "CKA_TRUST_EMAIL_PROTECTION", "CKT_NSS_TRUSTED_DELEGATOR") && Named(o)
  }

  predicate IsCertificate(o: Object) {
    Is(o, "CKA_CLASS", "CKO_CERTIFICATE") && Named(o) && HasBlob(o, "CKA_VALUE")
  }

  /** Whether a distrust date, as bytes, lies in the past; None if it is no date. */
  type DateReader = Bytes -> Option<bool>

  function DistrustedNow(o: Object, expired: DateReader): Option<bool> {
    if HasBlob(o, "CKA_NSS_EMAIL_DISTRUST_AFTER") then expired(o["CKA_NSS_EMAIL_DISTRUST_AFTER"].bytes) else Some(false)
  }

  ghost predicate TrustedIn(objs: seq<Object>, o: Object) {
    Named(o) && exists t :: t in objs && Delegates(t) && NameOf(t) == NameOf(o)
  }

  ghost predicate Candidate(objs: seq<Object>, o: Object) {
    IsCertificate(o) && TrustedIn(objs, o)
  }

  /** The roots to bundle, in file order. */
  ghost predicate Wanted(objs: seq<Object>, o: Object, expired: DateReader) {
    Candidate(objs, o) && DistrustedNow(o, expired) == Some(false)
  }

  /** A trusted certificate whose distrust date cannot be read stops the run. */
  ghost predicate Unreadable(objs: seq<Object>, o: Object, expired: DateReader) {
    Candidate(objs, o) && DistrustedNow(o, expired).None?
  }

  ghost function Roots(objs: seq<Object>, all: seq<Object>, expired: DateReader): seq<Object> {
    if objs == [] then []
    else
      var n := |objs| - 1;
      Roots(objs[..n], all, expired) + if Wanted(all, objs[n], expired) then [objs[n]] else []
  }

  /** None stands for the exception of an unreadable date. */
  method SelectRoots(objs: seq<Object>, expired: DateReader) returns (out: Option<seq<Object>>)
    ensures out.None? <==> exists o :: o in objs && Unreadable(objs, o, expired)
    ensures out.Some? ==> out.value == Roots(objs, objs, expired)
    ensures out.Some? ==> forall o :: o in out.value <==> o in objs && Wanted(objs, o, expired)
  {
    var trusted: set<(Bytes, Bytes)> := {};
    for i := 0 to |objs|
      invariant forall n :: n in trusted <==> exists t :: t in objs[..i] && Delegates(t) && NameOf(t) == n
    {
      assert objs[..i + 1] == objs[..i] + [objs[i]];
      if Delegates(objs[i]) {
        trusted := trusted + {NameOf(objs[i])};
      }
    }
    assert objs[..|objs|] == objs;
    var roots: seq<Object> := [];
    for i := 0 to |objs|
      invariant roots == Roots(objs[..i], objs, expired)
      invariant forall o :: o in objs[..i] ==> !Unreadable(objs, o, expired)
    {
      assert objs[..i + 1][..i] == objs[..i] && objs[..i + 1] == objs[..i] + [objs[i]];
      var o := objs[i];
      if !Is(o, "CKA_CLASS", "CKO_CERTIFICATE") { continue; }
      if !(Named(o) && HasBlob(o, "CKA_VALUE")) { continue; }
      if NameOf(o) !in trusted { continue; }
      var distrusted := DistrustedNow(o, expired);
      if distrusted.None? {
        assert o in objs && Unreadable(objs, o, expired);
        return None;
      }
      if distrusted.value { continue; }
      roots := roots + [o];
    }
    assert objs[..|objs|] == objs;
    RootsMembers(objs, objs, expired);
    out := Some(roots);
  }

  lemma {:induction false} RootsMembers(objs: seq<Object>, all: seq<Object>, expired: DateReader)
    ensures forall o :: o in Roots(objs, all, expired) <==> o in objs && Wanted(all, o, expired)
  {
    if objs != [] {
      var n := |objs| - 1;
      RootsMembers(objs[..n], all, expired);
      assert objs == objs[..n] + [objs[n]];
    }
  }

  /** Which roots are bundled, and whether a date stops the run, does not depend
      on where the trust records stand. */
  lemma SelectionForgetsOrder(objs: seq<Object>, objs': seq<Object>, expired: DateReader)
    requires multiset(objs) == multiset(objs')
    ensures forall o :: o in Roots(objs, objs, expired) <==> o in Roots(objs', objs', expired)
    ensures forall o :: o in objs && Unreadable(objs, o, expired) <==> o in objs' && Unreadable(objs', o, expired)
  {
    SameElements(objs, objs');
    RootsMembers(objs, objs, expired);
    RootsMembers(objs', objs', expired);
    forall o
      ensures Candidate(objs, o) <==> Candidate(objs', o)
    {
    }
  }

  /** Spelled out: a certificate with issuer, serial number and value is taken if
      some trust record of the same issuer and serial number makes it an e-mail
      delegator, unless its distrust date has passed. */
  ghost predicate IsTaken(objs: seq<Object>, o: Object, expired: DateReader) {
    && "CKA_CLASS" in o && o["CKA_CLASS"] == Word("CKO_CERTIFICATE")
    && "CKA_VALUE" in o && o["CKA_VALUE"].Blob?
    && "CKA_ISSUER" in o && o["CKA_ISSUER"].Blob? && "CKA_SERIAL_NUMBER" in o && o["CKA_SERIAL_NUMBER"].Blob?
    && (exists t :: t in objs && IsTrustFor(t, o["CKA_ISSUER"], o["CKA_SERIAL_NUMBER"]))
    && ("CKA_NSS_EMAIL_DISTRUST_AFTER" in o && o["CKA_NSS_EMAIL_DISTRUST_AFTER"].Blob? ==>
          expired(o["CKA_NSS_EMAIL_DISTRUST_AFTER"].bytes) == Some(false))
  }

  ghost predicate IsTrustFor(t: Object, issuer: Attribute, serial: Attribute) {
    && "CKA_CLASS" in t && t["CKA_CLASS"] == Word("CKO_NSS_TRUST")
    && "CKA_TRUST_EMAIL_PROTECTION" in t && t["CKA_TRUST_EMAIL_PROTECTION"] == Word("CKT_NSS_TRUSTED_DELEGATOR")
    && "CKA_ISSUER" in t && t["CKA_ISSUER"] == issuer && "CKA_SERIAL_NUMBER" in t && t["CKA_SERIAL_NUMBER"] == serial
  }

  lemma TakenExactly(objs: seq<Object>, o: Object, expired: DateReader)
    ensures Wanted(objs, o, expired) <==> IsTaken(objs, o, expired)
  {
    if Named(o) {
      forall t | t in objs
        ensures Delegates(t) && NameOf(t) == NameOf(o) <==> IsTrustFor(t, o["CKA_ISSUER"], o["CKA_SERIAL_NUMBER"])
      {
        if IsTrustFor(t, o["CKA_ISSUER"], o["CKA_SERIAL_NUMBER"]) {
          assert Named(t);
        }
      }
    }
  }
}
