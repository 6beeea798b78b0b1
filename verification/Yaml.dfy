/** The minimal indentation parser (roadmap_config.py) and, for every non-empty
    tree, the lines it reads back as that tree. */
module Yaml {
  import opened Domain
  import opened YamlText

  datatype Value =
    | Null | Bool(b: bool) | Int(n: int) | Float(text: string) | Str(s: string)
    | List(items: seq<Value>) | Dict(entries: map<string, Value>)

  // ----- scalars -----

  function LowerChar(c: char): char { if 'A' <= c <= 'Z' then c - 'A' + 'a' else c }
  function Lower(s: string): string { seq(|s|, i requires 0 <= i < |s| => LowerChar(s[i])) }

  /** The decimal digits beyond ASCII with their values, whichever they are. */
  const OTHER_DIGITS: map<char, nat>

  predicate Digit(c: char) { '0' <= c <= '9' || (c > '\U{7f}' && c in OTHER_DIGITS) }

  function DigitValue(c: char): nat
    requires Digit(c)
  {
    if '0' <= c <= '9' then c as int - '0' as int else OTHER_DIGITS[c]
  }

  predicate Digits(s: string) { s != "" && forall i :: 0 <= i < |s| ==> Digit(s[i]) }

  function Unsigned(s: string): string { if s != "" && s[0] == '-' then s[1..] else s }

  predicate IntText(s: string) { Digits(Unsigned(s)) }

  predicate FloatText(s: string) {
    var u := Unsigned(s);
    exists i :: 0 <= i < |u| && u[i] == '.' && Digits(u[..i]) && Digits(u[i + 1..])
  }

  function Number(s: string): nat
    requires forall i :: 0 <= i < |s| ==> Digit(s[i])
  {
    if s == "" then 0 else 10 * Number(s[..|s| - 1]) + DigitValue(s[|s| - 1])
  }

  predicate Quoted(t: string) {
    |t| >= 2 && ((t[0] == '"' && t[|t| - 1] == '"') || (t[0] == '\'' && t[|t| - 1] == '\''))
  }

  /** _parse_scalar. */
  function Scalar(text: string): Value {
    var t := Strip(text);
    if Quoted(t) then Str(t[1..|t| - 1])
    else if Lower(t) == "true" || Lower(t) == "yes" then Bool(true)
    else if Lower(t) == "false" || Lower(t) == "no" then Bool(false)
    else if Lower(t) == "null" || t == "~" || t == "" then Null
    else if IntText(t) then Int(if t[0] == '-' then -(Number(Unsigned(t)) as int) else Number(t))
    else if FloatText(t) then Float(t)
    else Str(t)
  }

  /** A bare word that reads as something else than itself. */
  predicate Reserved(s: string) {
    || Lower(s) in {"true", "yes", "false", "no", "null"} || s == "~" || s == ""
    || IntText(s) || FloatText(s)
  }

  lemma BareScalarIff(s: string)
    requires Tight(s) && !Quoted(s)
    ensures Scalar(s) == Str(s) <==> !Reserved(s)
  {
    TightStrips(s);
  }

  // ----- lines -----

  function FirstBreak(text: string): (n: nat)
    ensures n <= |text| && BreakFree(text[..n]) && (n < |text| ==> Break(text[n]))
  {
    if text == "" || Break(text[0]) then 0
    else
      var n := 1 + FirstBreak(text[1..]);
      assert forall i :: 1 <= i < n ==> text[i] == text[1..][..n - 1][i - 1];
      n
  }

  /** str.splitlines. */
  function SplitLines(text: string): seq<string>
    decreases |text|
  {
    var n := FirstBreak(text);
    if text == "" then []
    else if n == |text| then [text]
    else
      var skip := if text[n] == '\r' && n + 1 < |text| && text[n + 1] == '\n' then 2 else 1;
      [text[..n]] + SplitLines(text[n + skip..])
  }

  /** Where a comment starts, outside quotes and after a space or at the start. */
  function Cut(line: string, i: nat, single: bool, double: bool): (n: nat)
    requires i <= |line|
    ensures i <= n <= |line|
    decreases |line| - i
  {
    if i == |line| then i
    else if line[i] == '\'' && !double then Cut(line, i + 1, !single, double)
    else if line[i] == '"' && !single then Cut(line, i + 1, single, !double)
    else if line[i] == '#' && !single && !double && (i == 0 || line[i - 1] == ' ') then i
    else Cut(line, i + 1, single, double)
  }

  function Clean(raw: string): Option<string> {
    var line := RStrip(raw);
    var stripped := Strip(line);
    if stripped == "" || stripped[0] == '#' then None
    else
      var kept := RStrip(line[..Cut(line, 0, false, false)]);
      if Strip(kept) == "" then None else Some(kept)
  }

  function CleanAll(raws: seq<string>): seq<string> {
    if raws == [] then []
    else
      var before, last := CleanAll(raws[..|raws| - 1]), Clean(raws[|raws| - 1]);
      if last.Some? then before + [last.value] else before
  }

  /** _clean_lines. */
  method CleanLines(text: string) returns (lines: seq<string>)
    ensures lines == CleanAll(SplitLines(text))
  {
    lines := [];
    var raws := SplitLines(text);
    for n := 0 to |raws|
      invariant lines == CleanAll(raws[..n])
    {
      assert raws[..n + 1][..n] == raws[..n];
      var line := RStrip(raws[n]);
      var stripped := Strip(line);
      if stripped != "" && stripped[0] != '#' {
        var single, double, i := false, false, 0;
        while i < |line| && !(line[i] == '#' && !single && !double && (i == 0 || line[i - 1] == ' '))
          invariant 0 <= i <= |line| && Cut(line, i, single, double) == Cut(line, 0, false, false)
        {
          if line[i] == '\'' && !double { single := !single; }
          else if line[i] == '"' && !single { double := !double; }
          i := i + 1;
        }
        line := RStrip(line[..i]);
        if Strip(line) != "" { lines := lines + [line]; }
      }
    }
    assert raws[..|raws|] == raws;
  }

  // ----- blocks -----

  /** A block and the lines after it, or the parser's ValueError. */
  datatype Parsed = Ok(value: Value, rest: seq<string>) | Fail

  predicate IsItem(line: string) { |Strip(line)| >= 2 && Strip(line)[..2] == "- " }

  function ItemsOf(lines: seq<string>, indent: nat, acc: seq<Value>): (r: Parsed)
    ensures r.Ok? ==> |r.rest| <= |lines|
  {
    if lines == [] || Indent(lines[0]) != indent then Ok(List(acc), lines)
    else if !IsItem(lines[0]) then Fail
    else ItemsOf(lines[1..], indent, acc + [Scalar(Strip(Strip(lines[0])[2..]))])
  }

  function EntriesOf(lines: seq<string>, indent: nat, acc: map<string, Value>): (r: Parsed)
    ensures r.Ok? ==> |r.rest| <= |lines|
    decreases |lines|, 0
  {
    if lines == [] || Indent(lines[0]) != indent then Ok(Dict(acc), lines)
    else
      var content := Strip(lines[0]);
      if ':' !in content then Fail
      else
        var key, rest := KeyPart(content), RestPart(content);
        if rest != "" then EntriesOf(lines[1..], indent, acc[key := Scalar(rest)])
        else if |lines| > 1 && Indent(lines[1]) > indent then
          match BlockOf(lines[1..], Indent(lines[1]))
          case Fail => Fail
          case Ok(value, after) => EntriesOf(after, indent, acc[key := value])
        else EntriesOf(lines[1..], indent, acc[key := Null])
  }

  /** _parse_block on the lines from its index on. */
  function BlockOf(lines: seq<string>, indent: nat): (r: Parsed)
    ensures r.Ok? ==> |r.rest| <= |lines|
    decreases |lines|, 1
  {
    if lines == [] || Indent(lines[0]) < indent then Ok(Dict(map[]), lines)
    else if IsItem(lines[0]) then ItemsOf(lines, Indent(lines[0]), [])
    else EntriesOf(lines, Indent(lines[0]), map[])
  }

  function ParseLines(lines: seq<string>): Option<Value> {
    if lines == [] then Some(Dict(map[]))
    else match BlockOf(lines, Indent(lines[0]))
      case Fail => None
      case Ok(value, _) => Some(value)
  }

  function Parse(text: string): Option<Value> { ParseLines(CleanAll(SplitLines(text))) }

  /** What the index-based parser returns when the spec returns `r`. */
  predicate Answers(lines: seq<string>, value: Option<Value>, next: nat, r: Parsed) {
    match r
    case Fail => value == None
    case Ok(v, rest) => value == Some(v) && next <= |lines| && rest == lines[next..]
  }

  method ParseList(lines: seq<string>, start: nat, indent: nat) returns (value: Option<Value>, idx: nat)
    requires start <= |lines|
    ensures Answers(lines, value, idx, ItemsOf(lines[start..], indent, [])) && start <= idx <= |lines|
  {
    hide Strip, Scalar, Indent;
    var result: seq<Value> := [];
    idx := start;
    while idx < |lines|
      invariant start <= idx <= |lines|
      invariant ItemsOf(lines[start..], indent, []) == ItemsOf(lines[idx..], indent, result)
    {
      var line := lines[idx];
      if Indent(line) != indent { break; }
      if !IsItem(line) { return None, idx; }
      assert lines[idx..][1..] == lines[idx + 1..];
      result := result + [Scalar(Strip(Strip(line)[2..]))];
      idx := idx + 1;
    }
    value := Some(List(result));
  }

  method ParseMapping(lines: seq<string>, start: nat, indent: nat) returns (value: Option<Value>, idx: nat)
    requires start <= |lines|
    ensures Answers(lines, value, idx, EntriesOf(lines[start..], indent, map[])) && start <= idx <= |lines|
    decreases |lines| - start, 0
  {
    hide Strip, Scalar, KeyPart, RestPart, Indent, BlockOf;
    var result: map<string, Value> := map[];
    idx := start;
    while idx < |lines|
      invariant start <= idx <= |lines|
      invariant EntriesOf(lines[start..], indent, map[]) == EntriesOf(lines[idx..], indent, result)
    {
      var line := lines[idx];
      if Indent(line) != indent { break; }
      var content := Strip(line);
      if ':' !in content { return None, idx; }
      var key, rest := KeyPart(content), RestPart(content);
      assert lines[idx..][1..] == lines[idx + 1..];
      idx := idx + 1;
      if rest != "" {
        result := result[key := Scalar(rest)];
      } else if idx < |lines| && Indent(lines[idx]) > indent {
        var v, next := ParseBlock(lines, idx, Indent(lines[idx]));
        if v == None { return None, next; }
        result, idx := result[key := v.value], next;
      } else {
        result := result[key := Null];
      }
    }
    value := Some(Dict(result));
  }

  method ParseBlock(lines: seq<string>, start: nat, indent: nat) returns (value: Option<Value>, idx: nat)
    requires start <= |lines|
    ensures Answers(lines, value, idx, BlockOf(lines[start..], indent)) && start <= idx <= |lines|
    decreases |lines| - start, 1
  {
    if start == |lines| || Indent(lines[start]) < indent { return Some(Dict(map[])), start; }
    if IsItem(lines[start]) {
      value, idx := ParseList(lines, start, Indent(lines[start]));
    } else {
      value, idx := ParseMapping(lines, start, Indent(lines[start]));
    }
  }

  /** parse_minimal_yaml. */
  method ParseMinimalYaml(text: string) returns (value: Option<Value>)
    ensures value == Parse(text)
  {
    var lines := CleanLines(text);
    if lines == [] { return Some(Dict(map[])); }
    var idx;
    value, idx := ParseBlock(lines, 0, Indent(lines[0]));
    assert lines[0..] == lines;
  }

  // ----- what no document can put into a value -----

  /** Keys without colons and strings without line breaks, at every depth. */
  predicate Plain(v: Value) {
    match v
    case Str(s) => BreakFree(s)
    case List(items) => forall i :: 0 <= i < |items| ==> Plain(items[i])
    case Dict(entries) => forall k :: k in entries ==> ':' !in k && Plain(entries[k])
    case _ => true
  }

  lemma ScalarPlain(text: string)
    requires BreakFree(text)
    ensures Plain(Scalar(text))
  {
    StripWithin(text);
    WithinBreakFree(Strip(text), text);
  }

  predicate AllBreakFree(lines: seq<string>) { forall i :: 0 <= i < |lines| ==> BreakFree(lines[i]) }

  lemma {:induction false} ItemsPlain(lines: seq<string>, indent: nat, acc: seq<Value>)
    requires AllBreakFree(lines) && forall i :: 0 <= i < |acc| ==> Plain(acc[i])
    ensures var r := ItemsOf(lines, indent, acc); r.Ok? ==> Plain(r.value) && AllBreakFree(r.rest)
    decreases |lines|
  {
    if lines != [] && Indent(lines[0]) == indent && IsItem(lines[0]) {
      var content := Strip(lines[0]);
      StripWithin(lines[0]);
      WithinBreakFree(content, lines[0]);
      StripWithin(content[2..]);
      WithinBreakFree(Strip(content[2..]), content[2..]);
      ScalarPlain(Strip(content[2..]));
      ItemsPlain(lines[1..], indent, acc + [Scalar(Strip(content[2..]))]);
    }
  }

  lemma {:induction false} EntriesPlain(lines: seq<string>, indent: nat, acc: map<string, Value>)
    requires AllBreakFree(lines) && Plain(Dict(acc))
    ensures var r := EntriesOf(lines, indent, acc); r.Ok? ==> Plain(r.value) && AllBreakFree(r.rest)
    decreases |lines|, 0
  {
    if lines != [] && Indent(lines[0]) == indent && ':' in Strip(lines[0]) {
      var content := Strip(lines[0]);
      var key, rest := KeyPart(content), RestPart(content);
      StripWithin(lines[0]);
      RestWithin(content);
      WithinTransitive(rest, content, lines[0]);
      WithinBreakFree(rest, lines[0]);
      KeyColonFree(content);
      ScalarPlain(rest);
      if rest != "" {
        EntriesPlain(lines[1..], indent, acc[key := Scalar(rest)]);
      } else if |lines| > 1 && Indent(lines[1]) > indent {
        BlockPlain(lines[1..], Indent(lines[1]));
        var r := BlockOf(lines[1..], Indent(lines[1]));
        if r.Ok? { EntriesPlain(r.rest, indent, acc[key := r.value]); }
      } else {
        EntriesPlain(lines[1..], indent, acc[key := Null]);
      }
    }
  }

  lemma {:induction false} BlockPlain(lines: seq<string>, indent: nat)
    requires AllBreakFree(lines)
    ensures var r := BlockOf(lines, indent); r.Ok? ==> Plain(r.value) && AllBreakFree(r.rest)
    decreases |lines|, 1
  {
    if lines != [] && Indent(lines[0]) >= indent {
      if IsItem(lines[0]) { ItemsPlain(lines, Indent(lines[0]), []); }
      else { EntriesPlain(lines, Indent(lines[0]), map[]); }
    }
  }

  lemma {:induction false} SplitBreakFree(text: string)
    ensures AllBreakFree(SplitLines(text))
    decreases |text|
  {
    var n := FirstBreak(text);
    if n < |text| {
      var skip := if text[n] == '\r' && n + 1 < |text| && text[n + 1] == '\n' then 2 else 1;
      SplitBreakFree(text[n + skip..]);
    } else {
      assert text[..n] == text;
    }
  }

  lemma {:induction false} CleanBreakFree(raws: seq<string>)
    requires AllBreakFree(raws)
    ensures AllBreakFree(CleanAll(raws))
  {
    if raws != [] {
      var raw := raws[|raws| - 1];
      CleanBreakFree(raws[..|raws| - 1]);
      var line := RStrip(raw);
      StripWithin(raw);
      WithinBreakFree(line, raw);
      var part := line[..Cut(line, 0, false, false)];
      StripWithin(part);
      WithinBreakFree(RStrip(part), part);
    }
  }

  /** No text parses to a value with a colon in a key or a break in a string. */
  lemma ParsePlain(text: string)
    ensures Parse(text).Some? ==> Plain(Parse(text).value)
  {
    SplitBreakFree(text);
    CleanBreakFree(SplitLines(text));
    var lines := CleanAll(SplitLines(text));
    if lines != [] { BlockPlain(lines, Indent(lines[0])); }
  }
}
