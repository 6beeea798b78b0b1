/** Trees of plain and quoted scalars, the lines they are written as, and the
    proof that the parser reads exactly the tree back. */
module YamlPrint {
  import opened Domain
  import opened YamlText
  import opened Yaml

  /** A scalar is printed as it is; lists and groups are never empty. */
  datatype Node = Leaf(raw: string) | Items(raws: seq<string>) | Group(entries: Entries)
  datatype Entries = Nil | Entry(key: string, node: Node, tail: Entries)

  function Append(a: Entries, b: Entries): Entries {
    match a case Nil => b case Entry(k, n, t) => Entry(k, n, Append(t, b))
  }

  // ----- printing -----

  function EntryLines(key: string, node: Node, indent: nat): seq<string>
    decreases node
  {
    match node
    case Leaf(raw) => [Pad(indent) + (key + ": " + raw)]
    case Items(raws) => [Pad(indent) + (key + ":")] + ItemLines(raws, indent + 2)
    case Group(entries) => [Pad(indent) + (key + ":")] + Lines(entries, indent + 2)
  }

  function ItemLines(raws: seq<string>, indent: nat): seq<string> {
    if raws == [] then [] else [Pad(indent) + ("- " + raws[0])] + ItemLines(raws[1..], indent)
  }

  function Lines(entries: Entries, indent: nat): seq<string>
    decreases entries
  {
    match entries
    case Nil => []
    case Entry(key, node, tail) => EntryLines(key, node, indent) + Lines(tail, indent)
  }

  lemma {:induction false} LinesAppend(a: Entries, b: Entries, indent: nat)
    ensures Lines(Append(a, b), indent) == Lines(a, indent) + Lines(b, indent)
  {
    hide EntryLines;
    match a
    case Nil =>
      assert [] + Lines(b, indent) == Lines(b, indent);
    case Entry(k, n, t) =>
      LinesAppend(t, b, indent);
      Associative(EntryLines(k, n, indent), Lines(t, indent), Lines(b, indent));
  }

  lemma Associative(a: seq<string>, b: seq<string>, c: seq<string>)
    ensures a + b + c == a + (b + c)
  {
  }

  // ----- what is printable -----

  predicate IdentChar(c: char) {
    || 'a' <= c <= 'z' || 'A' <= c <= 'Z' || '0' <= c <= '9'
    || c == '.' || c == '_' || c == ':' || c == '>' || c == '#' || c == '/' || c == '+' || c == '-'
  }

  predicate Alnum(c: char) { 'a' <= c <= 'z' || 'A' <= c <= 'Z' || '0' <= c <= '9' }

  /** An identifier: it starts with a letter or digit and holds no blank. */
  predicate Ident(s: string) {
    s != "" && Alnum(s[0]) && forall i :: 0 <= i < |s| ==> IdentChar(s[i])
  }

  predicate TextChar(c: char) {
    c != '"' && c != '\'' && c != '\\' && c != '\r' && c != '\n' && c != '\t'
  }

  function InQuotes(text: string): string { "\"" + text + "\"" }

  /** A quoted free text without quotes and line breaks. */
  predicate QuotedText(raw: string) {
    |raw| >= 2 && raw == InQuotes(raw[1..|raw| - 1])
    && BreakFree(raw) && forall i :: 1 <= i < |raw| - 1 ==> TextChar(raw[i])
  }

  predicate GoodKey(k: string) { Ident(k) && ':' !in k }

  predicate GoodRaw(raw: string) { Ident(raw) || QuotedText(raw) }

  predicate GoodNode(node: Node) {
    match node
    case Leaf(raw) => GoodRaw(raw)
    case Items(raws) => raws != [] && forall i :: 0 <= i < |raws| ==> Ident(raws[i])
    case Group(entries) => entries != Nil && Good(entries)
  }

  predicate Good(entries: Entries) {
    match entries
    case Nil => true
    case Entry(key, node, tail) => GoodKey(key) && GoodNode(node) && Good(tail)
  }

  // ----- what is read back -----

  function Scalars(raws: seq<string>): seq<Value> {
    if raws == [] then [] else [Scalar(raws[0])] + Scalars(raws[1..])
  }

  function NodeValue(node: Node): Value
    decreases node
  {
    match node
    case Leaf(raw) => Scalar(raw)
    case Items(raws) => List(Scalars(raws))
    case Group(entries) => Dict(Entered(map[], entries))
  }

  /** Later entries replace earlier ones of the same key. */
  function Entered(acc: map<string, Value>, entries: Entries): map<string, Value>
    decreases entries
  {
    match entries
    case Nil => acc
    case Entry(key, node, tail) => Entered(acc[key := NodeValue(node)], tail)
  }

  // ----- one line -----

  lemma IdentFacts(s: string)
    requires Ident(s)
    ensures s != "" && Tight(s) && !Quoted(s) && s[0] != '#' && s[0] != ' ' && s[0] != '-' && BreakFree(s)
    ensures forall i :: 0 <= i < |s| ==> s[i] != ' ' && s[i] != '"' && s[i] != '\''
  {}

  lemma RawFacts(raw: string)
    requires GoodRaw(raw)
    ensures raw != "" && Tight(raw) && raw[0] != '#' && raw[0] != ' ' && BreakFree(raw)
  {
    if Ident(raw) { IdentFacts(raw); }
  }

  /** A line's indent and body, when the body starts and ends with ink. */
  lemma LineParts(indent: nat, body: string)
    requires body != "" && Tight(body)
    ensures Indent(Pad(indent) + body) == indent && Strip(Pad(indent) + body) == body
  {
    IndentPad(indent, body);
    StripPad(indent, body);
  }

  lemma LeafLine(key: string, raw: string, indent: nat)
    requires GoodKey(key) && GoodRaw(raw)
    ensures var line := Pad(indent) + (key + ": " + raw);
      && Indent(line) == indent && Strip(line) == key + ": " + raw && !IsItem(line)
      && ':' in Strip(line) && KeyPart(Strip(line)) == key && RestPart(Strip(line)) == raw
  {
    IdentFacts(key);
    RawFacts(raw);
    hide Ident, GoodRaw, Space, Strip, Indent, KeyPart, RestPart;
    var body := key + ": " + raw;
    assert body[0] == key[0] && body[|body| - 1] == raw[|raw| - 1];
    LineParts(indent, body);
    KeyValueSplits(key, raw);
    assert body[..2][0] != '-';
  }

  lemma HeadLine(key: string, indent: nat)
    requires GoodKey(key)
    ensures var line := Pad(indent) + (key + ":");
      && Indent(line) == indent && Strip(line) == key + ":" && !IsItem(line)
      && ':' in Strip(line) && KeyPart(Strip(line)) == key && RestPart(Strip(line)) == ""
  {
    IdentFacts(key);
    var body := key + ":";
    assert body[0] == key[0] && body[|body| - 1] == ':';
    assert !Space(':');
    hide Ident, Space, Strip, Indent, KeyPart, RestPart;
    LineParts(indent, body);
    KeySplits(key);
    assert body[..2][0] != '-';
  }

  lemma KeySplits(key: string)
    requires key != "" && ':' !in key && Tight(key) && forall i :: 0 <= i < |key| ==> !YamlText.Quote(key[i])
    ensures var content := key + ":"; ':' in content && KeyPart(content) == key && RestPart(content) == ""
  {
    KeyValueSplits(key, "x");
  }

  lemma ItemLine(raw: string, indent: nat)
    requires Ident(raw)
    ensures var line := Pad(indent) + ("- " + raw);
      && Indent(line) == indent && IsItem(line) && Scalar(Strip(Strip(line)[2..])) == Scalar(raw)
  {
    IdentFacts(raw);
    var body := "- " + raw;
    assert body[|body| - 1] == raw[|raw| - 1];
    LineParts(indent, body);
    assert body[..2] == "- " && body[2..] == raw;
    TightStrips(raw);
  }

  // ----- blocks -----

  /** The lines that follow leave the block. */
  predicate Ends(rest: seq<string>, indent: nat) { rest == [] || Indent(rest[0]) < indent }

  lemma {:induction false} ItemsReadBack(raws: seq<string>, indent: nat, acc: seq<Value>, rest: seq<string>)
    requires (forall i :: 0 <= i < |raws| ==> Ident(raws[i])) && Ends(rest, indent)
    ensures ItemsOf(ItemLines(raws, indent) + rest, indent, acc) == Ok(List(acc + Scalars(raws)), rest)
  {
    hide Scalar, Strip, Indent, IsItem;
    if raws == [] {
      assert ItemLines(raws, indent) + rest == rest && acc + Scalars(raws) == acc;
      EndsOther(rest, indent);
    } else {
      var lines := ItemLines(raws, indent) + rest;
      ItemLine(raws[0], indent);
      assert lines[0] == Pad(indent) + ("- " + raws[0]);
      assert lines[1..] == ItemLines(raws[1..], indent) + rest;
      ItemsReadBack(raws[1..], indent, acc + [Scalar(raws[0])], rest);
      assert acc + [Scalar(raws[0])] + Scalars(raws[1..]) == acc + Scalars(raws);
    }
  }

  lemma EndsOther(rest: seq<string>, indent: nat)
    requires Ends(rest, indent)
    ensures rest == [] || Indent(rest[0]) != indent
  {}

  /** The first line of printed entries stands at their indent. */
  lemma FirstLine(entries: Entries, indent: nat)
    requires Good(entries) && entries != Nil
    ensures var ls := Lines(entries, indent); ls != [] && Indent(ls[0]) == indent && !IsItem(ls[0])
  {
    hide Indent, IsItem;
    match entries.node {
      case Leaf(raw) => LeafLine(entries.key, raw, indent);
      case _ => HeadLine(entries.key, indent);
    }
  }

  lemma EndsAfter(entries: Entries, indent: nat, rest: seq<string>)
    requires Good(entries) && Ends(rest, indent)
    ensures Ends(Lines(entries, indent) + rest, indent + 1)
  {
    hide Indent, IsItem;
    if entries == Nil { assert Lines(entries, indent) + rest == rest; } else { FirstLine(entries, indent); }
  }

  lemma {:induction false} EntriesReadBack(entries: Entries, indent: nat, acc: map<string, Value>, rest: seq<string>)
    requires Good(entries) && Ends(rest, indent)
    ensures EntriesOf(Lines(entries, indent) + rest, indent, acc) == Ok(Dict(Entered(acc, entries)), rest)
    decreases entries, 1
  {
    hide Indent, IsItem, Strip, KeyPart, RestPart, Scalar;
    match entries {
      case Nil =>
        assert Lines(entries, indent) + rest == rest;
        EndsOther(rest, indent);
      case Entry(key, node, tail) =>
        var after := Lines(tail, indent) + rest;
        assert Lines(entries, indent) + rest == EntryLines(key, node, indent) + after;
        EndsAfter(tail, indent, rest);
        EntryReadBack(key, node, indent, acc, after);
        EntriesReadBack(tail, indent, acc[key := NodeValue(node)], rest);
    }
  }

  /** One entry is consumed, whatever follows at its level or further out. */
  lemma {:induction false} EntryReadBack(key: string, node: Node, indent: nat, acc: map<string, Value>, after: seq<string>)
    requires GoodKey(key) && GoodNode(node) && Ends(after, indent + 1)
    ensures EntriesOf(EntryLines(key, node, indent) + after, indent, acc)
         == EntriesOf(after, indent, acc[key := NodeValue(node)])
    decreases node, 0
  {
    hide Indent, IsItem, Strip, KeyPart, RestPart, Scalar;
    var lines := EntryLines(key, node, indent) + after;
    match node {
      case Leaf(raw) =>
        LeafLine(key, raw, indent);
        RawFacts(raw);
        assert lines[1..] == after;
      case Items(raws) =>
        HeadLine(key, indent);
        var block := ItemLines(raws, indent + 2) + after;
        assert lines[1..] == block;
        ItemLine(raws[0], indent + 2);
        assert block[0] == Pad(indent + 2) + ("- " + raws[0]);
        ItemsReadBack(raws, indent + 2, [], after);
        assert [] + Scalars(raws) == Scalars(raws);
      case Group(entries) =>
        HeadLine(key, indent);
        var block := Lines(entries, indent + 2) + after;
        assert lines[1..] == block;
        FirstLine(entries, indent + 2);
        assert block[0] == Lines(entries, indent + 2)[0];
        EntriesReadBack(entries, indent + 2, map[], after);
    }
  }

  /** Printing a tree and parsing its lines gives the tree's value. */
  lemma PrintParse(entries: Entries)
    requires Good(entries) && entries != Nil
    ensures ParseLines(Lines(entries, 0)) == Some(Dict(Entered(map[], entries)))
  {
    hide Indent, IsItem;
    FirstLine(entries, 0);
    EntriesReadBack(entries, 0, map[], []);
    assert Lines(entries, 0) + [] == Lines(entries, 0);
  }

  // ----- comments, blank lines and line breaks -----

  /** No '#' in line[i..j) opens a comment, and no quote is met. */
  lemma {:induction false} CutPlain(line: string, i: nat, j: nat)
    requires i <= j <= |line|
    requires forall p :: i <= p < j ==>
      line[p] != '"' && line[p] != '\'' && (line[p] == '#' ==> p > 0 && line[p - 1] != ' ')
    ensures Cut(line, i, false, false) == Cut(line, j, false, false)
    decreases j - i
  {
    if i < j {
      var c := line[i];
      assert c == '#' ==> i > 0 && line[i - 1] != ' ';
      assert Cut(line, i, false, false) == Cut(line, i + 1, false, false);
      CutPlain(line, i + 1, j);
    }
  }

  lemma {:induction false} CutQuoted(line: string, i: nat, j: nat)
    requires i <= j <= |line|
    requires forall p :: i <= p < j ==> line[p] != '"'
    ensures Cut(line, i, false, true) == Cut(line, j, false, true)
    decreases j - i
  {
    if i < j { CutQuoted(line, i + 1, j); }
  }

  /** A line with ink at both ends of its body and no comment is kept as it is. */
  lemma KeptWhole(indent: nat, body: string)
    requires body != "" && Tight(body) && body[0] != '#'
    requires var line := Pad(indent) + body; Cut(line, 0, false, false) == |line|
    ensures Clean(Pad(indent) + body) == Some(Pad(indent) + body)
  {
    StripPad(indent, body);
    var line := Pad(indent) + body;
    assert line[..|line|] == line;
  }

  predicate NoBlanks(s: string) {
    forall i :: 0 <= i < |s| ==> s[i] != ' ' && s[i] != '"' && s[i] != '\''
  }

  /** A body of one or two words without quotes, the second not a comment. */
  lemma KeptWords(indent: nat, first: string, gap: string, second: string)
    requires first != "" && NoBlanks(first) && NoBlanks(second) && first[0] != '#'
    requires gap == "" || (gap == " " && second != "" && second[0] != '#')
    requires Tight(first) && Tight(second) && (gap == "" ==> second == "")
    ensures Clean(Pad(indent) + (first + gap + second)) == Some(Pad(indent) + (first + gap + second))
  {
    var body := first + gap + second;
    var line := Pad(indent) + body;
    assert body[0] == first[0];
    assert body[|body| - 1] == if second == "" then first[|first| - 1] else second[|second| - 1];
    forall p | 0 <= p < |line|
      ensures line[p] != '"' && line[p] != '\'' && (line[p] == '#' ==> p > 0 && line[p - 1] != ' ')
    {
      if p < indent {
      } else if p < indent + |first| {
        assert line[p] == first[p - indent];
        if p > indent { assert line[p - 1] == first[p - indent - 1]; }
      } else if p < indent + |first| + |gap| {
        assert line[p] == ' ';
      } else {
        var q := p - indent - |first| - |gap|;
        assert line[p] == second[q];
        if q > 0 { assert line[p - 1] == second[q - 1]; }
      }
    }
    CutPlain(line, 0, |line|);
    KeptWhole(indent, body);
  }

  lemma KeptQuoted(indent: nat, key: string, raw: string)
    requires GoodKey(key) && QuotedText(raw)
    ensures Clean(Pad(indent) + (key + ": " + raw)) == Some(Pad(indent) + (key + ": " + raw))
  {
    IdentFacts(key);
    var body := key + ": " + raw;
    var line := Pad(indent) + body;
    var open, close := indent + |key| + 2, |line| - 1;
    assert body[0] == key[0] && body[|body| - 1] == '"';
    assert line[open] == raw[0] == '"' && line[close] == raw[|raw| - 1] == '"';
    hide Ident, QuotedText, Space;
    forall p | 0 <= p < open
      ensures line[p] != '"' && line[p] != '\'' && (line[p] == '#' ==> p > 0 && line[p - 1] != ' ')
    {
      if indent <= p < indent + |key| {
        assert line[p] == key[p - indent];
        if p > indent { assert line[p - 1] == key[p - indent - 1]; }
      }
    }
    CutPlain(line, 0, open);
    InsideQuotes(raw);
    forall p | open + 1 <= p < close ensures line[p] != '"' {
      assert line[p] == raw[p - open];
    }
    CutQuoted(line, open + 1, close);
    KeptWhole(indent, body);
  }

  lemma InsideQuotes(raw: string)
    requires QuotedText(raw)
    ensures forall i :: 1 <= i < |raw| - 1 ==> raw[i] != '"'
  {}

  predicate Kept(lines: seq<string>) { forall i :: 0 <= i < |lines| ==> Clean(lines[i]) == Some(lines[i]) }

  lemma {:induction false} CleanKept(lines: seq<string>)
    requires Kept(lines)
    ensures CleanAll(lines) == lines
  {
    hide Clean;
    if lines != [] {
      var init := lines[..|lines| - 1];
      assert forall i :: 0 <= i < |init| ==> init[i] == lines[i];
      CleanKept(init);
    }
  }

  lemma {:induction false} CleanAllAppend(a: seq<string>, b: seq<string>)
    ensures CleanAll(a + b) == CleanAll(a) + CleanAll(b)
  {
    hide Clean;
    if b == [] {
      assert a + b == a;
    } else {
      assert (a + b)[..|a + b| - 1] == a + b[..|b| - 1];
      CleanAllAppend(a, b[..|b| - 1]);
    }
  }

  /** Blank lines and whole-line comments leave nothing. */
  predicate Skipped(raw: string) { raw == "" || (raw[0] == '#' && !Space(raw[|raw| - 1])) }

  lemma SkippedClean(raw: string)
    requires Skipped(raw)
    ensures Clean(raw) == None
  {
    if raw != "" { TightStrips(raw); }
  }

  lemma {:induction false} CleanSkipped(raws: seq<string>)
    requires forall i :: 0 <= i < |raws| ==> Skipped(raws[i])
    ensures CleanAll(raws) == []
  {
    hide Clean, Skipped;
    if raws != [] {
      var init := raws[..|raws| - 1];
      assert forall i :: 0 <= i < |init| ==> init[i] == raws[i];
      CleanSkipped(init);
      SkippedClean(raws[|raws| - 1]);
    }
  }

  lemma {:induction false} ItemsKept(raws: seq<string>, indent: nat)
    requires forall i :: 0 <= i < |raws| ==> Ident(raws[i])
    ensures Kept(ItemLines(raws, indent)) && AllBreakFree(ItemLines(raws, indent))
  {
    hide Clean, Ident, Break;
    if raws != [] {
      IdentFacts(raws[0]);
      DashFacts();
      KeptWords(indent, "-", " ", raws[0]);
      assert "-" + " " + raws[0] == "- " + raws[0];
      ItemsKept(raws[1..], indent);
      PadBreakFree(indent, "- " + raws[0]);
    }
  }

  lemma DashFacts()
    ensures Tight("-") && NoBlanks("-") && BreakFree("- ") && BreakFree(": ") && BreakFree(":") && !Space(':')
  {}

  lemma PadBreakFree(indent: nat, body: string)
    requires BreakFree(body)
    ensures BreakFree(Pad(indent) + body)
  {
    assert !Break(' ');
  }

  /** A tree's lines survive the cleaning untouched. */
  lemma {:induction false} LinesKept(entries: Entries, indent: nat)
    requires Good(entries)
    ensures Kept(Lines(entries, indent)) && AllBreakFree(Lines(entries, indent))
    decreases entries, 1
  {
    hide Clean, Break;
    match entries {
      case Nil =>
      case Entry(key, node, tail) =>
        EntryKept(key, node, indent);
        LinesKept(tail, indent);
    }
  }

  lemma HeadKept(key: string, indent: nat)
    requires GoodKey(key)
    ensures Clean(Pad(indent) + (key + ":")) == Some(Pad(indent) + (key + ":"))
    ensures BreakFree(Pad(indent) + (key + ":"))
  {
    IdentFacts(key);
    DashFacts();
    hide Clean, Ident, Break, Space;
    var first := key + ":";
    assert first[0] == key[0] && first[|first| - 1] == ':';
    KeptWords(indent, first, "", "");
    assert first + "" + "" == first;
    PadBreakFree(indent, first);
  }

  lemma LeafKept(key: string, raw: string, indent: nat)
    requires GoodKey(key) && GoodRaw(raw)
    ensures Clean(Pad(indent) + (key + ": " + raw)) == Some(Pad(indent) + (key + ": " + raw))
    ensures BreakFree(Pad(indent) + (key + ": " + raw))
  {
    IdentFacts(key);
    RawFacts(raw);
    DashFacts();
    if Ident(raw) { IdentFacts(raw); }
    hide Clean, Ident, Break, Space, QuotedText;
    if Ident(raw) {
      var first := key + ":";
      assert first[0] == key[0] && first[|first| - 1] == ':';
      KeptWords(indent, first, " ", raw);
      assert first + " " + raw == key + ": " + raw;
    } else {
      KeptQuoted(indent, key, raw);
    }
    PadBreakFree(indent, key + ": " + raw);
  }

  lemma {:induction false} EntryKept(key: string, node: Node, indent: nat)
    requires GoodKey(key) && GoodNode(node)
    ensures Kept(EntryLines(key, node, indent)) && AllBreakFree(EntryLines(key, node, indent))
    decreases node, 0
  {
    hide Clean, Break;
    match node {
      case Leaf(raw) => LeafKept(key, raw, indent);
      case Items(raws) =>
        HeadKept(key, indent);
        ItemsKept(raws, indent + 2);
      case Group(entries) =>
        HeadKept(key, indent);
        LinesKept(entries, indent + 2);
    }
  }

  // ----- text -----

  /** "\n".join. */
  function JoinLines(lines: seq<string>): string {
    if lines == [] then "" else if |lines| == 1 then lines[0] else lines[0] + "\n" + JoinLines(lines[1..])
  }

  lemma FirstBreakAt(line: string, tail: string)
    requires BreakFree(line)
    ensures FirstBreak(line + "\n" + tail) == |line| && FirstBreak(line) == |line|
  {
    var text := line + "\n" + tail;
    assert text[|line|] == '\n';
    assert forall i :: 0 <= i < |line| ==> text[i] == line[i];
    assert forall i :: 0 <= i < FirstBreak(text) ==> text[..FirstBreak(text)][i] == text[i];
  }

  /** Joining lines without breaks and splitting them again loses at most an empty
      last line. */
  lemma {:induction false} SplitJoin(lines: seq<string>)
    requires AllBreakFree(lines) && lines != []
    ensures SplitLines(JoinLines(lines)) == if lines[|lines| - 1] == "" then lines[..|lines| - 1] else lines
    decreases |lines|
  {
    hide SplitLines, BreakFree;
    if |lines| == 1 {
      SplitOne(lines[0]);
      if lines[0] == "" { assert lines[..0] == []; } else { assert lines == [lines[0]]; }
    } else {
      SplitFirst(lines[0], JoinLines(lines[1..]));
      SplitJoin(lines[1..]);
      if lines[|lines| - 1] == "" {
        assert lines[..|lines| - 1] == [lines[0]] + lines[1..][..|lines[1..]| - 1];
      } else {
        assert lines == [lines[0]] + lines[1..];
      }
    }
  }

  lemma SplitOne(line: string)
    requires BreakFree(line)
    ensures SplitLines(line) == if line == "" then [] else [line]
  {
    FirstBreakAt(line, "");
  }

  lemma SplitFirst(line: string, tail: string)
    requires BreakFree(line)
    ensures SplitLines(line + "\n" + tail) == [line] + SplitLines(tail)
  {
    FirstBreakAt(line, tail);
    hide FirstBreak, BreakFree, Break;
    var text := line + "\n" + tail;
    assert text[|line|] == '\n' && text[..|line|] == line && text[|line| + 1..] == tail;
  }

  /** What a text of such lines is cleaned to. */
  lemma CleanJoined(lines: seq<string>)
    requires AllBreakFree(lines) && lines != []
    ensures CleanAll(SplitLines(JoinLines(lines))) == CleanAll(lines)
  {
    SplitJoin(lines);
    if lines[|lines| - 1] == "" {
      var init := lines[..|lines| - 1];
      SkippedClean("");
    }
  }
}
