/** Printing and parsing a skill file's header and body (app/admin_service.py). */
module Frontmatter {
  import opened Text

  datatype Field = Field(key: string, value: string)

  datatype Document = Document(data: map<string, string>, body: string)

  // ---- Text primitives --------------------------------------------------------------------

  /** Where `str.splitlines` cuts; the empty line it would not make between CR and LF holds no colon. */
  predicate IsBreak(c: char) {
    var n := c as int;
    10 <= n <= 13 || 28 <= n <= 30 || n == 0x85 || n == 0x2028 || n == 0x2029
  }

  function Unquote(s: string): string { Strip(Apostrophes, Strip(Quotes, Trim(s))) }

  /** Index of the first character of a kind. */
  function FirstBreak(s: string): (i: nat)
    ensures i <= |s| && (i < |s| ==> IsBreak(s[i])) && forall k :: 0 <= k < i ==> !IsBreak(s[k])
  {
    if s == "" || IsBreak(s[0]) then 0 else FirstBreak(s[1..]) + 1
  }

  function FirstColon(s: string): (i: nat)
    ensures i <= |s| && (i < |s| ==> s[i] == ':') && forall k :: 0 <= k < i ==> s[k] != ':'
  {
    if s == "" || s[0] == ':' then 0 else FirstColon(s[1..]) + 1
  }

  function Lines(s: string): seq<string> {
    var i := FirstBreak(s);
    if i == |s| then [s] else [s[..i]] + Lines(s[i + 1..])
  }

  predicate DashesAt(s: string, i: nat) { i + 3 <= |s| && s[i] == '-' && s[i + 1] == '-' && s[i + 2] == '-' }

  predicate HasDashes(s: string) { exists i: nat :: i < |s| && DashesAt(s, i) }

  /** Where the first `---` starts, or the length. */
  function FirstDashes(s: string): (i: nat)
    ensures i <= |s| && (i < |s| ==> DashesAt(s, i)) && forall k: nat :: k < i ==> !DashesAt(s, k)
  {
    if s == "" || DashesAt(s, 0) then 0
    else
      var i := FirstDashes(s[1..]) + 1;
      assert forall k: nat :: 0 < k < i ==> !DashesAt(s[1..], k - 1) && !DashesAt(s, k);
      i
  }

  // ---- Printer and parser -----------------------------------------------------------------

  function Line(f: Field): string { f.key + ": " + f.value }

  function FieldLines(meta: seq<Field>): string {
    if meta == [] then "" else Line(meta[0]) + "\n" + FieldLines(meta[1..])
  }

  function Printed(meta: seq<Field>, body: string): string {
    "---" + ("\n" + FieldLines(meta)) + "---" + ("\n\n" + Trim(body) + "\n")
  }

  function ParseLine(data: map<string, string>, line: string): map<string, string> {
    var i := FirstColon(line);
    if i == |line| then data else data[Trim(line[..i]) := Unquote(line[i + 1..])]
  }

  function ParseLines(data: map<string, string>, lines: seq<string>): map<string, string>
    decreases |lines|
  {
    if lines == [] then data else ParseLines(ParseLine(data, lines[0]), lines[1..])
  }

  function Parsed(raw: string): Document {
    if !("---" <= raw) then Document(map[], raw)
    else
      var rest := raw[3..];
      var i := FirstDashes(rest);
      if i == |rest| then Document(map[], raw)
      else Document(ParseLines(map[], Lines(rest[..i])), Trim(rest[i + 3..]))
  }

  method FormatFrontmatter(meta: seq<Field>, body: string) returns (text: string)
    ensures text == Printed(meta, body)
  {
    var lines := ["---"];
    for i := 0 to |meta|
      invariant |lines| == i + 1 && lines[0] == "---" && forall k :: 0 <= k < i ==> lines[k + 1] == Line(meta[k])
    {
      lines := lines + [meta[i].key + ": " + meta[i].value];
    }
    ghost var head := lines[1..];
    lines := lines + ["---", "", Trim(body), ""];
    JoinPrinted(meta, head, body);
    assert lines == ["---"] + head + ["---", "", Trim(body), ""];
    text := Join(lines);
  }

  function Join(lines: seq<string>): string {
    if lines == [] then "" else if |lines| == 1 then lines[0] else lines[0] + "\n" + Join(lines[1..])
  }

  lemma {:induction false} JoinFields(meta: seq<Field>, head: seq<string>, tail: seq<string>)
    requires |head| == |meta| && forall k :: 0 <= k < |meta| ==> head[k] == Line(meta[k])
    requires tail != []
    ensures Join(head + tail) == FieldLines(meta) + Join(tail)
  {
    if meta == [] {
      assert head + tail == tail;
    } else {
      JoinFields(meta[1..], head[1..], tail);
      assert (head + tail)[1..] == head[1..] + tail;
    }
  }

  lemma JoinTail(text: string)
    ensures Join(["---", "", text, ""]) == "---" + ("\n\n" + text + "\n")
  {
    assert Join([text, ""]) == text + "\n" + Join([""]) by { assert [text, ""][1..] == [""]; }
    assert Join(["", text, ""]) == "" + "\n" + Join([text, ""]) by { assert ["", text, ""][1..] == [text, ""]; }
    assert Join(["---", "", text, ""]) == "---" + "\n" + Join(["", text, ""]) by {
      assert ["---", "", text, ""][1..] == ["", text, ""];
    }
  }

  lemma JoinPrinted(meta: seq<Field>, head: seq<string>, body: string)
    requires |head| == |meta| && forall k :: 0 <= k < |meta| ==> head[k] == Line(meta[k])
    ensures Join(["---"] + head + ["---", "", Trim(body), ""]) == Printed(meta, body)
  {
    hide Line, FieldLines, Trim;
    var tail := ["---", "", Trim(body), ""];
    JoinFields(meta, head, tail);
    JoinTail(Trim(body));
    assert ["---"] + head + tail == ["---"] + (head + tail);
    JoinFirst("---", head + tail);
    hide Join;
    assert "---" + "\n" + (FieldLines(meta) + Join(tail)) == Printed(meta, body);
  }

  lemma JoinFirst(line: string, rest: seq<string>)
    requires rest != []
    ensures Join([line] + rest) == line + "\n" + Join(rest)
  {
    assert ([line] + rest)[1..] == rest;
  }

  method ParseFrontmatter(raw: string) returns (d: Document)
    ensures d == Parsed(raw)
  {
    if !("---" <= raw) {
      return Document(map[], raw);
    }
    var rest := raw[3..];
    var i := FirstDashes(rest);
    if i == |rest| {
      return Document(map[], raw);
    }
    var lines := Lines(rest[..i]);
    var data := map[];
    for k := 0 to |lines|
      invariant ParseLines(data, lines[k..]) == ParseLines(map[], lines)
    {
      assert lines[k..][1..] == lines[k + 1..];
      data := ParseLine(data, lines[k]);
    }
    d := Document(data, Trim(rest[i + 3..]));
  }

  // ---- When a header survives -------------------------------------------------------------

  predicate OneLine(s: string) { forall k :: 0 <= k < |s| ==> !IsBreak(s[k]) }

  predicate KeyPrints(key: string) { OneLine(key) && !HasDashes(key) && Trim(key) == key && FirstColon(key) == |key| }

  predicate ValuePrints(value: string) { OneLine(value) && !HasDashes(value) && Unquote(value) == value }

  predicate Prints(meta: seq<Field>) {
    forall i :: 0 <= i < |meta| ==> KeyPrints(meta[i].key) && ValuePrints(meta[i].value)
  }

  /** Keys of a dictionary. */
  predicate Distinct(meta: seq<Field>) { forall i, j :: 0 <= i < j < |meta| ==> meta[i].key != meta[j].key }

  function Put(data: map<string, string>, meta: seq<Field>): map<string, string>
    decreases |meta|
  {
    if meta == [] then data else Put(data[meta[0].key := meta[0].value], meta[1..])
  }

  /** Every key maps to its field's value, the other keys are left alone. */
  lemma {:induction false} PutLooksUp(data: map<string, string>, meta: seq<Field>)
    requires Distinct(meta)
    ensures forall i :: 0 <= i < |meta| ==>
              meta[i].key in Put(data, meta) && Put(data, meta)[meta[i].key] == meta[i].value
    ensures forall k :: (forall i :: 0 <= i < |meta| ==> meta[i].key != k) ==>
              (k in Put(data, meta) <==> k in data) && (k in data ==> Put(data, meta)[k] == data[k])
    decreases |meta|
  {
    if meta != [] {
      var rest := meta[1..];
      PutLooksUp(data[meta[0].key := meta[0].value], rest);
      assert forall i :: 0 <= i < |rest| ==> rest[i] == meta[i + 1];
      assert forall i :: 0 < i < |meta| ==> meta[i] == rest[i - 1];
    }
  }

  /** The printed body trims back. */
  lemma BodyReturns(body: string)
    ensures Trim("\n\n" + Trim(body) + "\n") == Trim(body)
  {
    var text := Trim(body);
    StripBack(Blanks, "\n\n" + text, '\n');
    assert "\n\n" + text == ['\n'] + (['\n'] + text);
    StripFront(Blanks, '\n', ['\n'] + text);
    StripFront(Blanks, '\n', text);
    StripFixed(Blanks, body);
  }

  // ---- What the parser reads back from printed lines ---------------------------------------

  /** A line without a break, then a break: the line comes first. */
  lemma LinesStep(line: string, rest: string)
    requires OneLine(line)
    ensures Lines(line + "\n" + rest) == [line] + Lines(rest)
  {
    var s := line + "\n" + rest;
    assert s[|line|] == '\n';
    assert forall k :: 0 <= k < |line| ==> s[k] == line[k];
    assert FirstBreak(s) == |line|;
    assert s[..|line|] == line && s[|line| + 1..] == rest;
  }

  lemma LineReads(data: map<string, string>, f: Field)
    requires KeyPrints(f.key)
    ensures ParseLine(data, Line(f)) == data[f.key := Unquote(f.value)]
  {
    var line := Line(f);
    assert line[|f.key|] == ':';
    assert forall k :: 0 <= k < |f.key| ==> line[k] == f.key[k];
    assert FirstColon(line) == |f.key|;
    assert line[..|f.key|] == f.key && line[|f.key| + 1..] == [' '] + f.value;
    StripFront(Blanks, ' ', f.value);
  }

  /** Each value as the parser trims it. */
  function Unquoted(meta: seq<Field>): seq<Field> {
    if meta == [] then [] else [Field(meta[0].key, Unquote(meta[0].value))] + Unquoted(meta[1..])
  }

  lemma {:induction false} UnquotedAt(meta: seq<Field>)
    ensures |Unquoted(meta)| == |meta|
    ensures forall i :: 0 <= i < |meta| ==> Unquoted(meta)[i] == Field(meta[i].key, Unquote(meta[i].value))
  {
    if meta != [] {
      UnquotedAt(meta[1..]);
    }
  }

  predicate KeysPrint(meta: seq<Field>) {
    forall i :: 0 <= i < |meta| ==> KeyPrints(meta[i].key) && OneLine(meta[i].value)
  }

  lemma {:induction false} FieldsRead(data: map<string, string>, meta: seq<Field>)
    requires KeysPrint(meta)
    ensures ParseLines(data, Lines(FieldLines(meta))) == Put(data, Unquoted(meta))
    decreases |meta|
  {
    hide KeyPrints, ParseLine, Lines, Unquote, OneLine;
    var read := Lines(FieldLines(meta));
    if meta == [] {
      NoFieldsRead(data);
    } else {
      var f, rest := meta[0], Lines(FieldLines(meta[1..]));
      FirstLine(meta);
      assert read[1..] == rest;
      LineReads(data, f);
      FieldsRead(data[f.key := Unquote(f.value)], meta[1..]);
      assert Unquoted(meta)[1..] == Unquoted(meta[1..]);
    }
  }

  lemma NoFieldsRead(data: map<string, string>)
    ensures ParseLines(data, Lines("")) == data
  {
    assert Lines("") == [""];
    assert [""][1..] == [];
  }

  lemma FirstLine(meta: seq<Field>)
    requires meta != [] && KeysPrint(meta)
    ensures Lines(FieldLines(meta)) == [Line(meta[0])] + Lines(FieldLines(meta[1..]))
  {
    hide Lines, HasDashes, Strip, FirstColon;
    assert KeyPrints(meta[0].key) && OneLine(meta[0].value);
    LinesStep(Line(meta[0]), FieldLines(meta[1..]));
  }

  // ---- Where the parser cuts --------------------------------------------------------------

  /** No `---` starts inside `head`, whatever part of `tail` it would need. */
  ghost predicate Clear(head: string, tail: string) { forall k: nat :: k < |head| ==> !DashesAt(head + tail, k) }

  lemma ClearBeforeOther(s: string, c: char, tail: string)
    requires !HasDashes(s) && c != '-'
    ensures Clear(s + [c], tail)
  {
    var all := s + [c] + tail;
    forall k: nat | k < |s| + 1 ensures !DashesAt(all, k) {
      if DashesAt(all, k) {
        assert all[|s|] == c;
        assert DashesAt(s, k);
      }
    }
  }

  lemma ClearJoins(a: string, b: string, tail: string)
    requires Clear(a, b + tail) && Clear(b, tail)
    ensures Clear(a + b, tail)
  {
    var all := a + b + tail;
    assert all == a + (b + tail);
    forall k: nat | k < |a + b| ensures !DashesAt(all, k) {
      assert k >= |a| ==> (DashesAt(all, k) <==> DashesAt(b + tail, k - |a|));
    }
  }

  lemma {:induction false} FieldsClear(meta: seq<Field>, tail: string)
    requires forall i :: 0 <= i < |meta| ==> !HasDashes(meta[i].key) && !HasDashes(meta[i].value)
    ensures Clear(FieldLines(meta), tail)
    decreases |meta|
  {
    hide Clear, HasDashes, DashesAt;
    if meta == [] {
      NothingIsClear(tail);
    } else {
      var f, rest := meta[0], FieldLines(meta[1..]);
      FieldsClear(meta[1..], tail);
      ClearBeforeOther(f.value, '\n', rest + tail);
      ClearJoins(f.value + "\n", rest, tail);
      assert !HasDashes("") by { NoDashesInNothing(); }
      ClearBeforeOther("", ' ', f.value + "\n" + rest + tail);
      assert "" + [' '] == " " && f.value + "\n" + rest + tail == (f.value + "\n" + rest) + tail;
      ClearJoins(" ", f.value + "\n" + rest, tail);
      var valued := " " + (f.value + "\n" + rest);
      ClearBeforeOther(f.key, ':', valued + tail);
      ClearJoins(f.key + ":", valued, tail);
      assert f.key + ":" + valued == FieldLines(meta);
    }
  }

  lemma NothingIsClear(tail: string)
    ensures Clear("", tail)
  {
  }

  lemma NoDashesInNothing()
    ensures !HasDashes("")
  {
  }

  lemma ClearCut(head: string, tail: string)
    requires Clear(head, "---" + tail)
    ensures FirstDashes(head + "---" + tail) == |head|
  {
    var all := head + "---" + tail;
    hide FirstDashes;
    assert all == head + ("---" + tail);
    assert all[|head|..|head| + 3] == "---";
    assert DashesAt(all, |head|);
  }

  // ---- What any parse can yield -----------------------------------------------------------

  predicate Plain(s: string) { OneLine(s) && !HasDashes(s) }

  lemma SliceKeeps(s: string, i: nat, j: nat)
    requires i <= j <= |s|
    ensures !HasDashes(s) ==> !HasDashes(s[i..j])
    ensures OneLine(s) ==> OneLine(s[i..j])
    ensures FirstColon(s) == |s| ==> FirstColon(s[i..j]) == j - i
  {
    hide HasDashes, FirstColon;
    var t := s[i..j];
    assert forall k :: 0 <= k < |t| ==> t[k] == s[k + i];
    SliceDashes(s, i, j);
  }

  lemma SliceDashes(s: string, i: nat, j: nat)
    requires i <= j <= |s|
    ensures HasDashes(s[i..j]) ==> HasDashes(s)
  {
    var t := s[i..j];
    if HasDashes(t) {
      var k: nat :| k < |t| && DashesAt(t, k);
      assert DashesAt(s, k + i);
    }
  }

  lemma {:induction false} StripKeeps(cut: Cut, s: string)
    ensures Plain(s) ==> Plain(Strip(cut, s))
    ensures FirstColon(s) == |s| ==> FirstColon(Strip(cut, s)) == |Strip(cut, s)|
    decreases |s|
  {
    if s == "" {
    } else if Removes(cut, s[0]) {
      SliceKeeps(s, 1, |s|);
      assert s[1..|s|] == s[1..];
      StripKeeps(cut, s[1..]);
    } else if Removes(cut, s[|s| - 1]) {
      SliceKeeps(s, 0, |s| - 1);
      StripKeeps(cut, s[..|s| - 1]);
    }
  }

  lemma {:induction false} LinesArePlain(s: string)
    requires !HasDashes(s)
    ensures forall k :: 0 <= k < |Lines(s)| ==> Plain(Lines(s)[k])
    decreases |s|
  {
    var i := FirstBreak(s);
    SliceKeeps(s, 0, i);
    if i == |s| {
      assert s[..i] == s;
    } else {
      SliceKeeps(s, i + 1, |s|);
      assert s[i + 1..|s|] == s[i + 1..];
      LinesArePlain(s[i + 1..]);
    }
  }

  predicate PlainData(data: map<string, string>) { forall k :: k in data ==> KeyPrints(k) && Plain(data[k]) }

  lemma ParsedLineIsPlain(data: map<string, string>, line: string)
    requires PlainData(data) && Plain(line)
    ensures PlainData(ParseLine(data, line))
  {
    hide Strip, HasDashes, OneLine;
    var i := FirstColon(line);
    if i < |line| {
      var key, value := line[..i], line[i + 1..];
      SliceKeeps(line, 0, i);
      SliceKeeps(line, i + 1, |line|);
      assert line[i + 1..|line|] == value;
      assert forall k :: 0 <= k < |key| ==> key[k] == line[k];
      assert FirstColon(key) == |key|;
      StripKeeps(Blanks, key);
      StripFixed(Blanks, key);
      StripKeeps(Blanks, value);
      StripKeeps(Quotes, Trim(value));
      StripKeeps(Apostrophes, Strip(Quotes, Trim(value)));
    }
  }

  lemma {:induction false} ParsedIsPlain(data: map<string, string>, lines: seq<string>)
    requires PlainData(data) && forall k :: 0 <= k < |lines| ==> Plain(lines[k])
    ensures PlainData(ParseLines(data, lines))
    decreases |lines|
  {
    if lines != [] {
      ParsedLineIsPlain(data, lines[0]);
      ParsedIsPlain(ParseLine(data, lines[0]), lines[1..]);
    }
  }

  // ---- Round trip -------------------------------------------------------------------------

  /** With printable keys and no dashes the parser sees every field, its value trimmed, and the stripped body. */
  lemma PrintedParses(meta: seq<Field>, body: string)
    requires KeysPrint(meta) && forall i :: 0 <= i < |meta| ==> !HasDashes(meta[i].value)
    ensures Parsed(Printed(meta, body)) == Document(Put(map[], Unquoted(meta)), Trim(body))
  {
    hide Parsed, Printed, KeysPrint, HasDashes, Lines, ParseLines, FieldLines, Trim, Put, FirstDashes;
    var head, tail := "\n" + FieldLines(meta), "\n\n" + Trim(body) + "\n";
    HeadEnds(meta, tail);
    ParsedCut(head, tail);
    HeadReads(meta);
    BodyReturns(body);
    PrintedCut(meta, body);
  }

  lemma PrintedCut(meta: seq<Field>, body: string)
    ensures Printed(meta, body) == "---" + (("\n" + FieldLines(meta)) + "---" + ("\n\n" + Trim(body) + "\n"))
  {
    hide FieldLines, Trim;
  }

  lemma ParsedCut(head: string, tail: string)
    requires FirstDashes(head + "---" + tail) == |head|
    ensures Parsed("---" + (head + "---" + tail)) == Document(ParseLines(map[], Lines(head)), Trim(tail))
  {
    hide Lines, Trim, FirstDashes;
    var rest := head + "---" + tail;
    var raw := "---" + rest;
    assert raw[3..] == rest && raw[..3] == "---";
    assert rest[..|head|] == head && rest[|head| + 3..] == tail;
  }

  lemma HeadEnds(meta: seq<Field>, tail: string)
    requires KeysPrint(meta) && forall i :: 0 <= i < |meta| ==> !HasDashes(meta[i].value)
    ensures FirstDashes(("\n" + FieldLines(meta)) + "---" + tail) == |"\n" + FieldLines(meta)|
  {
    hide Strip, OneLine, HasDashes, Clear, FieldLines, FirstDashes, FirstColon;
    FieldsClear(meta, "---" + tail);
    NoDashesInNothing();
    ClearBeforeOther("", '\n', FieldLines(meta) + ("---" + tail));
    assert "" + ['\n'] == "\n";
    ClearJoins("\n", FieldLines(meta), "---" + tail);
    ClearCut("\n" + FieldLines(meta), tail);
  }

  lemma HeadReads(meta: seq<Field>)
    requires KeysPrint(meta)
    ensures ParseLines(map[], Lines("\n" + FieldLines(meta))) == Put(map[], Unquoted(meta))
  {
    hide Lines, Put;
    var lines := [""] + Lines(FieldLines(meta));
    assert "" + "\n" + FieldLines(meta) == "\n" + FieldLines(meta);
    LinesStep("", FieldLines(meta));
    assert lines[1..] == Lines(FieldLines(meta));
    FieldsRead(map[], meta);
  }

  lemma HeadHasNoDashes(rest: string)
    ensures !HasDashes(rest[..FirstDashes(rest)])
  {
    var head := rest[..FirstDashes(rest)];
    forall k: nat | k < |head| ensures !DashesAt(head, k) {
      assert !DashesAt(rest, k);
    }
  }

  /** Whatever was printed, what is parsed back has printable keys and one-line values without dashes. */
  lemma ParsedBackIsPlain(meta: seq<Field>, body: string)
    ensures PlainData(Parsed(Printed(meta, body)).data)
  {
    hide Strip, Lines, OneLine;
    var raw := Printed(meta, body);
    var rest := raw[3..];
    var i := FirstDashes(rest);
    var head := rest[..i];
    HeadHasNoDashes(rest);
    LinesArePlain(head);
    ParsedIsPlain(map[], Lines(head));
  }

  /** Printing then parsing returns the dictionary and the stripped body exactly when every key and value prints. */
  lemma RoundTripIff(meta: seq<Field>, body: string)
    requires Distinct(meta)
    ensures Parsed(Printed(meta, body)) == Document(Put(map[], meta), Trim(body)) <==> Prints(meta)
  {
    hide Parsed, Printed, Put, OneLine, HasDashes, Strip, FirstColon;
    UnquotedAt(meta);
    PutLooksUp(map[], meta);
    PutLooksUp(map[], Unquoted(meta));
    if Prints(meta) {
      PrintedParses(meta, body);
      assert Unquoted(meta) == meta;
    } else if Parsed(Printed(meta, body)).data == Put(map[], meta) {
      ParsedBackIsPlain(meta, body);
      forall i | 0 <= i < |meta| ensures KeyPrints(meta[i].key) && Plain(meta[i].value) {
        assert meta[i].key in Put(map[], meta);
      }
      PrintedParses(meta, body);
    }
  }

  /** Saving what was read changes nothing more. */
  lemma PrintsOnce(meta: seq<Field>, body: string)
    ensures Printed(meta, Trim(body)) == Printed(meta, body)
  {
    StripFixed(Blanks, body);
  }
}
