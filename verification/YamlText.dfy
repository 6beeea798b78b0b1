/** Python's string operations as the config parser uses them, on strings of
    characters (roadmap_config.py). */
module YamlText {

  /** Where str.splitlines ends a line. */
  predicate Break(c: char) {
    c in {'\n', '\r', '\U{0b}', '\U{0c}', '\U{1c}', '\U{1d}', '\U{1e}', '\U{85}', '\U{2028}', '\U{2029}'}
  }

  /** What str.strip takes off. */
  predicate Space(c: char) {
    Break(c) || c in {' ', '\t', '\U{1f}', '\U{a0}', '\U{1680}', '\U{202f}', '\U{205f}', '\U{3000}'}
    || '\U{2000}' <= c <= '\U{200a}'
  }

  predicate BreakFree(s: string) { forall i :: 0 <= i < |s| ==> !Break(s[i]) }

  function LStrip(s: string): string {
    if s != "" && Space(s[0]) then LStrip(s[1..]) else s
  }

  function RStrip(s: string): string {
    if s != "" && Space(s[|s| - 1]) then RStrip(s[..|s| - 1]) else s
  }

  function Strip(s: string): string { LStrip(RStrip(s)) }

  /** Neither end is taken off. */
  predicate Tight(s: string) { s != "" ==> !Space(s[0]) && !Space(s[|s| - 1]) }

  lemma TightStrips(s: string)
    requires Tight(s)
    ensures Strip(s) == s && RStrip(s) == s && LStrip(s) == s
  {}

  function Pad(n: nat): string { seq(n, _ => ' ') }

  function Indent(line: string): nat {
    if line != "" && line[0] == ' ' then 1 + Indent(line[1..]) else 0
  }

  lemma {:induction false} IndentPad(n: nat, body: string)
    requires body == "" || body[0] != ' '
    ensures Indent(Pad(n) + body) == n
  {
    if n == 0 {
      assert Pad(n) + body == body;
    } else {
      assert (Pad(n) + body)[1..] == Pad(n - 1) + body;
      IndentPad(n - 1, body);
    }
  }

  lemma {:induction false} LStripPad(n: nat, body: string)
    requires body == "" || !Space(body[0])
    ensures LStrip(Pad(n) + body) == body
  {
    if n == 0 {
      assert Pad(n) + body == body;
    } else {
      assert (Pad(n) + body)[1..] == Pad(n - 1) + body;
      LStripPad(n - 1, body);
    }
  }

  lemma StripPad(n: nat, body: string)
    requires body != "" && Tight(body)
    ensures Strip(Pad(n) + body) == body && RStrip(Pad(n) + body) == Pad(n) + body
  {
    hide Space;
    var line := Pad(n) + body;
    assert line[|line| - 1] == body[|body| - 1];
    assert RStrip(line) == line;
    LStripPad(n, body);
  }

  // ----- parts of a string only hold its own characters -----

  lemma {:induction false} LStripPart(s: string)
    ensures exists k :: 0 <= k <= |s| && LStrip(s) == s[k..]
  {
    if s != "" && Space(s[0]) {
      LStripPart(s[1..]);
      var k :| 0 <= k <= |s[1..]| && LStrip(s[1..]) == s[1..][k..];
      assert s[1..][k..] == s[k + 1..];
    } else {
      assert s == s[0..];
    }
  }

  lemma {:induction false} RStripPart(s: string)
    ensures exists k :: 0 <= k <= |s| && RStrip(s) == s[..k]
  {
    if s != "" && Space(s[|s| - 1]) {
      var t := s[..|s| - 1];
      RStripPart(t);
      var k :| 0 <= k <= |t| && RStrip(t) == t[..k];
      assert t[..k] == s[..k];
    } else {
      assert s == s[..|s|];
    }
  }

  /** No character of `part` is missing from `whole`. */
  predicate Within(part: string, whole: string) { forall i :: 0 <= i < |part| ==> part[i] in whole }

  lemma StripWithin(s: string)
    ensures Within(Strip(s), s) && Within(RStrip(s), s)
  {
    RStripPart(s);
    LStripPart(RStrip(s));
  }

  lemma WithinBreakFree(part: string, whole: string)
    requires Within(part, whole) && BreakFree(whole)
    ensures BreakFree(part)
  {}

  lemma WithinTransitive(a: string, b: string, c: string)
    requires Within(a, b) && Within(b, c)
    ensures Within(a, c)
  {}

  // ----- key: value -----

  function FirstColon(s: string): nat
    requires ':' in s
    ensures FirstColon(s) < |s| && s[FirstColon(s)] == ':'
    ensures forall i :: 0 <= i < FirstColon(s) ==> s[i] != ':'
  {
    if s[0] == ':' then 0 else 1 + FirstColon(s[1..])
  }

  predicate Quote(c: char) { c == '"' || c == '\'' }

  /** str.strip("\"'"). */
  function StripQuotes(s: string): string
    decreases |s|
  {
    if s != "" && Quote(s[0]) then StripQuotes(s[1..])
    else if s != "" && Quote(s[|s| - 1]) then StripQuotes(s[..|s| - 1])
    else s
  }

  function KeyPart(content: string): string
    requires ':' in content
  {
    StripQuotes(Strip(content[..FirstColon(content)]))
  }

  function RestPart(content: string): string
    requires ':' in content
  {
    Strip(content[FirstColon(content) + 1..])
  }

  lemma {:induction false} StripQuotesWithin(s: string)
    ensures Within(StripQuotes(s), s)
    decreases |s|
  {
    if s != "" && Quote(s[0]) {
      StripQuotesWithin(s[1..]);
    } else if s != "" && Quote(s[|s| - 1]) {
      StripQuotesWithin(s[..|s| - 1]);
    }
  }

  /** A key never holds a colon. */
  lemma KeyColonFree(content: string)
    requires ':' in content
    ensures ':' !in KeyPart(content)
  {
    var head := content[..FirstColon(content)];
    StripWithin(head);
    StripQuotesWithin(Strip(head));
    WithinTransitive(StripQuotes(Strip(head)), Strip(head), head);
  }

  lemma RestWithin(content: string)
    requires ':' in content
    ensures Within(RestPart(content), content)
  {
    var tail := content[FirstColon(content) + 1..];
    StripWithin(tail);
    assert Within(tail, content);
    WithinTransitive(Strip(tail), tail, content);
  }

  lemma {:induction false} ColonAt(k: string, tail: string)
    requires ':' !in k
    ensures ':' in k + ":" + tail && FirstColon(k + ":" + tail) == |k|
  {
    var s := k + ":" + tail;
    assert s[|k|] == ':';
    assert forall i :: 0 <= i < |k| ==> s[i] == k[i];
  }

  lemma {:induction false} QuotesStay(s: string)
    requires forall i :: 0 <= i < |s| ==> !Quote(s[i])
    ensures StripQuotes(s) == s
  {}

  /** Splitting "key: value" and "key:" gives the parts back. */
  lemma KeyValueSplits(k: string, raw: string)
    requires k != "" && ':' !in k && Tight(k) && forall i :: 0 <= i < |k| ==> !Quote(k[i])
    requires raw != "" && Tight(raw)
    ensures var content := k + ": " + raw; ':' in content && KeyPart(content) == k && RestPart(content) == raw
    ensures var content := k + ":"; ':' in content && KeyPart(content) == k && RestPart(content) == ""
  {
    QuotesStay(k);
    TightStrips(k);
    var content := k + ": " + raw;
    assert content == k + ":" + (" " + raw);
    ColonAt(k, " " + raw);
    assert content[..|k|] == k && content[|k| + 1..] == " " + raw;
    assert Pad(1) == " ";
    StripPad(1, raw);
    var head := k + ":";
    assert head == k + ":" + "";
    ColonAt(k, "");
    assert head[..|k|] == k && head[|k| + 1..] == "";
  }
}
