/** The roadmap config printer (roadmap_register.py) against the parser that reads
    its files (roadmap_config.py). */
module RoadmapRegister {
  import opened Domain
  import opened YamlText
  import opened Yaml
  import opened YamlPrint
  import T = RoadmapTemplates

  datatype Inputs = Inputs(
    board: string, origin: string, transition: string, fromSlice: string, toSlice: string, returnTo: string,
    implAssignee: string, reviewAssignee: string, roadmapId: string, preset: string, goalAnchor: string,
    applyMode: bool)

  /** The validated values that go into the file; the empty preset and anchor are
      left out of it. */
  datatype Config = Config(
    board: string, origin: string, transition: string, fromSlice: string, toSlice: string, returnTo: string,
    implAssignee: string, reviewAssignee: string, roadmapId: string, preset: string, goalAnchor: string,
    applyMode: bool, kinds: seq<string>)

  // ----- validation -----

  predicate SafeIdent(s: string) { Ident(s) && |s| <= 121 }

  predicate SafeText(s: string) { 1 <= |s| <= 240 && forall i :: 0 <= i < |s| ==> TextChar(s[i]) }

  /** The fail-closed checks on the trimmed values: None stands for ValueError. */
  function Validate(q: Inputs): Option<Config> {
    var c := Config(
      Strip(q.board), Strip(q.origin), Strip(q.transition), Strip(q.fromSlice), Strip(q.toSlice),
      if q.returnTo != "" then Strip(q.returnTo) else Strip(q.origin),
      Strip(q.implAssignee), Strip(q.reviewAssignee),
      if q.roadmapId != "" then Strip(q.roadmapId) else Strip(q.board) + ".roadmap",
      Strip(q.preset), Strip(q.goalAnchor), q.applyMode,
      match T.Resolve(Strip(q.preset), []) case None => [] case Some(steps) => T.Kinds(steps));
    if (&& SafeIdent(c.board) && SafeIdent(c.transition) && SafeIdent(c.fromSlice) && SafeIdent(c.toSlice)
        && SafeIdent(c.implAssignee) && SafeIdent(c.reviewAssignee)
        && SafeText(c.origin) && SafeText(c.returnTo)
        && (q.roadmapId != "" ==> SafeIdent(c.roadmapId))
        && (q.preset != "" ==> SafeIdent(c.preset))
        && (q.goalAnchor != "" ==> SafeText(c.goalAnchor))
        && T.Resolve(c.preset, []).Some?)
    then Some(c) else None
  }

  // ----- the file -----

  function One(key: string, raw: string): Entries { Entry(key, Leaf(raw), Nil) }

  function BoolText(b: bool): string { if b then "true" else "false" }

  function Switches(): Entries { Entry("enabled", Leaf("true"), One("kill_switch", "false")) }

  function BoardPart(c: Config): Entries { Entry("board", Leaf(c.board), One("same_board_only", "true")) }

  function EndpointPart(c: Config): Entries {
    Entry("expected_origin", Leaf(InQuotes(c.origin)), One("expected_return_to", InQuotes(c.returnTo)))
  }

  function AssigneePart(c: Config): Entries {
    Entry("impl_assignee", Leaf(c.implAssignee), One("review_assignee", c.reviewAssignee))
  }

  function TrustPart(c: Config): Entries {
    Entry("ack_trigger_agent", Leaf("true"), Entry("trusted_assignees", Items([c.reviewAssignee]), Nil))
  }

  function AllowPart(c: Config): Entries { Entry("allowed_transitions", Items([c.transition]), Nil) }

  function LimitPart(): Entries {
    Entry("max_chain_depth", Leaf("3"), Entry("max_promotions_per_roadmap", Leaf("6"),
    Entry("promote_cooldown_seconds", Leaf("900"), Entry("require_review_edge", Leaf("true"),
    Entry("require_ack_edge", Leaf("true"), Entry("require_trusted_assignee", Leaf("true"),
    Entry("require_origin_match", Leaf("true"), One("require_policy_resolution", "true"))))))))
  }

  function SlicePart(c: Config): Entries {
    Entry("roadmap_id", Leaf(c.roadmapId), Entry("from_slice", Leaf(c.fromSlice), One("to_slice", c.toSlice)))
  }

  function PresetPart(c: Config): Entries {
    if c.preset != "" then One("template_preset", c.preset) else Nil
  }

  function AnchorPart(c: Config): Entries {
    if c.goalAnchor != "" then One("goal_anchor", InQuotes(c.goalAnchor)) else Nil
  }

  function ShapePart(c: Config): Entries {
    Entry("slice_template", Items(c.kinds), Entry("policy_refs", Items(["design_opus", "implementation_default"]),
    Entry("max_chain_depth", Leaf("3"), One("version", if c.preset != "" then "template-v2" else "template-v1"))))
  }

  function TransitionBody(c: Config): Entries {
    Append(SlicePart(c), Append(PresetPart(c), Append(AnchorPart(c), ShapePart(c))))
  }

  function TransitionPart(c: Config): Entries {
    Entry("transitions", Group(Entry(c.transition, Group(TransitionBody(c)), Nil)), Nil)
  }

  /** The explanatory comment lines of the file, in the four places it has them:
      any lines the parser skips. */
  datatype Notes = Notes(header: seq<string>, board: seq<string>, apply: seq<string>, ack: seq<string>)

  predicate AllSkipped(raws: seq<string>) { forall i :: 0 <= i < |raws| ==> Skipped(raws[i]) && BreakFree(raws[i]) }

  predicate Comments(notes: Notes) {
    AllSkipped(notes.header) && AllSkipped(notes.board) && AllSkipped(notes.apply) && AllSkipped(notes.ack)
  }

  const BLANK := [""]

  /** Each part of the file behind the comments and blank lines above it. */
  function Parts(c: Config, notes: Notes): seq<(seq<string>, Entries)> {
    [(notes.header, Switches()), (BLANK + notes.board, BoardPart(c)),
     (BLANK + notes.apply, One("apply_mode", BoolText(c.applyMode))),
     (BLANK, EndpointPart(c)), (BLANK, AssigneePart(c)), (notes.ack, TrustPart(c)),
     (BLANK, AllowPart(c)), (BLANK, LimitPart()), (BLANK, TransitionPart(c))]
  }

  function PartLines(parts: seq<(seq<string>, Entries)>): seq<string> {
    if parts == [] then []
    else parts[0].0 + Lines(parts[0].1, 0) + PartLines(parts[1..])
  }

  /** render_roadmap_config. */
  function Render(c: Config, notes: Notes): string { JoinLines(PartLines(Parts(c, notes)) + BLANK) }

  // ----- the tree in the file -----

  function Merged(parts: seq<(seq<string>, Entries)>): Entries {
    if parts == [] then Nil else Append(parts[0].1, Merged(parts[1..]))
  }

  function Tree(c: Config): Entries { Merged(Parts(c, Notes([], [], [], []))) }

  predicate GoodParts(parts: seq<(seq<string>, Entries)>) {
    forall i :: 0 <= i < |parts| ==> AllSkipped(parts[i].0) && Good(parts[i].1)
  }

  lemma {:induction false} GoodAppend(a: Entries, b: Entries)
    requires Good(a) && Good(b)
    ensures Good(Append(a, b))
  {
    match a case Nil => case Entry(k, n, t) => GoodAppend(t, b);
  }

  lemma {:induction false} PartsClean(parts: seq<(seq<string>, Entries)>)
    requires GoodParts(parts)
    ensures CleanAll(PartLines(parts)) == Lines(Merged(parts), 0)
    ensures Good(Merged(parts)) && AllBreakFree(PartLines(parts))
  {
    hide Clean, CleanAll, Skipped, BreakFree, Lines, Good, Append;
    if parts == [] {
      NothingLeft();
    } else {
      PartsClean(parts[1..]);
      PartClean(parts[0].0, parts[0].1, PartLines(parts[1..]), Merged(parts[1..]));
    }
  }

  lemma NothingLeft()
    ensures CleanAll([]) == [] && Lines(Nil, 0) == [] && Good(Nil) && AllBreakFree([])
  {}

  lemma PartClean(notes: seq<string>, entries: Entries, rest: seq<string>, tail: Entries)
    requires AllSkipped(notes) && Good(entries)
    requires CleanAll(rest) == Lines(tail, 0) && Good(tail) && AllBreakFree(rest)
    ensures CleanAll(notes + Lines(entries, 0) + rest) == Lines(Append(entries, tail), 0)
    ensures Good(Append(entries, tail)) && AllBreakFree(notes + Lines(entries, 0) + rest)
  {
    hide Clean, CleanAll, Skipped, BreakFree, Lines, Good, Append;
    GoodAppend(entries, tail);
    LinesAppend(entries, tail, 0);
    LinesKept(entries, 0);
    CleanKept(Lines(entries, 0));
    CleanSkipped(notes);
    CleanAllAppend(notes, Lines(entries, 0));
    CleanAllAppend(notes + Lines(entries, 0), rest);
    assert [] + Lines(entries, 0) == Lines(entries, 0);
  }

  lemma TreeOfParts(c: Config, notes: Notes)
    ensures Merged(Parts(c, notes)) == Tree(c)
  {
    SameMerged(Parts(c, notes), Parts(c, Notes([], [], [], [])));
  }

  lemma {:induction false} SameMerged(a: seq<(seq<string>, Entries)>, b: seq<(seq<string>, Entries)>)
    requires |a| == |b| && forall i :: 0 <= i < |a| ==> a[i].1 == b[i].1
    ensures Merged(a) == Merged(b)
  {
    if a != [] { SameMerged(a[1..], b[1..]); }
  }

  /** A good file is read back as its tree. */
  lemma RenderReadBack(c: Config, notes: Notes)
    requires GoodParts(Parts(c, notes)) && Tree(c) != Nil
    ensures Parse(Render(c, notes)) == Some(Dict(Entered(map[], Tree(c))))
  {
    hide Clean, Skipped, Break, GoodParts, Parts, Tree;
    var lines := PartLines(Parts(c, notes));
    TreeOfParts(c, notes);
    PartsClean(Parts(c, notes));
    BlankLast(lines);
    CleanJoined(lines + BLANK);
    PrintParse(Tree(c));
  }

  lemma BlankLast(lines: seq<string>)
    ensures CleanAll(lines + BLANK) == CleanAll(lines)
    ensures AllBreakFree(lines) ==> AllBreakFree(lines + BLANK)
  {
    assert (lines + BLANK)[..|lines + BLANK| - 1] == lines;
    SkippedClean("");
  }

  // ----- when the file is good -----

  /** What the validated values still have to satisfy for the file to be one. */
  predicate Printable(c: Config) {
    ':' !in c.transition && BreakFree(c.origin) && BreakFree(c.returnTo) && BreakFree(c.goalAnchor)
  }

  predicate Validated(c: Config) {
    && SafeIdent(c.board) && SafeIdent(c.transition) && SafeIdent(c.fromSlice) && SafeIdent(c.toSlice)
    && SafeIdent(c.implAssignee) && SafeIdent(c.reviewAssignee) && SafeText(c.origin) && SafeText(c.returnTo)
    && Ident(c.roadmapId) && (c.preset != "" ==> SafeIdent(c.preset) && !Reserved(c.preset))
    && (c.goalAnchor != "" ==> SafeText(c.goalAnchor))
    && c.kinds != [] && forall i :: 0 <= i < |c.kinds| ==> Ident(c.kinds[i]) && !Reserved(c.kinds[i])
  }

  lemma TextGood(text: string)
    requires SafeText(text) && BreakFree(text)
    ensures GoodRaw(InQuotes(text))
  {
    var raw := InQuotes(text);
    assert raw[1..|raw| - 1] == text;
    forall i | 0 <= i < |raw| ensures !Break(raw[i]) {
      if 0 < i < |raw| - 1 { assert raw[i] == text[i - 1]; }
    }
  }

  lemma SwitchKeys()
    ensures GoodKey("enabled") && GoodKey("kill_switch") && GoodKey("board") && GoodKey("same_board_only")
    ensures GoodKey("apply_mode")
  {}

  lemma EndpointKeys()
    ensures GoodKey("expected_origin") && GoodKey("expected_return_to") && GoodKey("transitions")
  {}

  lemma AssigneeKeys()
    ensures GoodKey("impl_assignee") && GoodKey("review_assignee") && GoodKey("ack_trigger_agent")
  {}

  lemma ListKeys()
    ensures GoodKey("trusted_assignees") && GoodKey("allowed_transitions")
  {}

  lemma CountKeys()
    ensures GoodKey("max_chain_depth") && GoodKey("max_promotions_per_roadmap") && GoodKey("promote_cooldown_seconds")
  {}

  lemma EdgeKeys()
    ensures GoodKey("require_review_edge") && GoodKey("require_ack_edge") && GoodKey("require_trusted_assignee")
  {}

  lemma ProofKeys()
    ensures GoodKey("require_origin_match") && GoodKey("require_policy_resolution")
  {}

  lemma SliceKeys()
    ensures GoodKey("roadmap_id") && GoodKey("from_slice") && GoodKey("to_slice") && GoodKey("template_preset")
  {}

  lemma ShapeKeys()
    ensures GoodKey("goal_anchor") && GoodKey("slice_template") && GoodKey("policy_refs") && GoodKey("version")
  {}

  lemma FixedWords()
    ensures Ident("true") && Ident("false") && Ident("3") && Ident("6") && Ident("900")
    ensures Ident("design_opus") && Ident("implementation_default") && Ident("template-v1") && Ident("template-v2")
  {}

  lemma GoodEntry(key: string, node: Node, tail: Entries)
    requires GoodKey(key) && GoodNode(node) && Good(tail)
    ensures Good(Entry(key, node, tail))
  {}

  lemma GoodOne(key: string, raw: string)
    requires GoodKey(key) && GoodRaw(raw)
    ensures Good(One(key, raw))
  {}

  lemma LimitsGood()
    ensures Good(LimitPart())
  {
    CountKeys();
    EdgeKeys();
    ProofKeys();
    FixedWords();
    hide GoodKey, Ident, QuotedText;
    var e7 := One("require_policy_resolution", "true");
    GoodOne("require_policy_resolution", "true");
    GoodEntry("require_origin_match", Leaf("true"), e7);
    var e6 := Entry("require_origin_match", Leaf("true"), e7);
    GoodEntry("require_trusted_assignee", Leaf("true"), e6);
    var e5 := Entry("require_trusted_assignee", Leaf("true"), e6);
    GoodEntry("require_ack_edge", Leaf("true"), e5);
    var e4 := Entry("require_ack_edge", Leaf("true"), e5);
    GoodEntry("require_review_edge", Leaf("true"), e4);
    var e3 := Entry("require_review_edge", Leaf("true"), e4);
    GoodEntry("promote_cooldown_seconds", Leaf("900"), e3);
    var e2 := Entry("promote_cooldown_seconds", Leaf("900"), e3);
    GoodEntry("max_promotions_per_roadmap", Leaf("6"), e2);
    GoodEntry("max_chain_depth", Leaf("3"), Entry("max_promotions_per_roadmap", Leaf("6"), e2));
  }

  lemma BodyGood(c: Config)
    requires Validated(c) && Printable(c)
    ensures Good(TransitionBody(c)) && TransitionBody(c) != Nil
  {
    SliceKeys();
    ShapeKeys();
    CountKeys();
    FixedWords();
    if c.goalAnchor != "" { TextGood(c.goalAnchor); }
    hide GoodKey, Ident, QuotedText, Reserved;
    GoodOne("to_slice", c.toSlice);
    GoodEntry("from_slice", Leaf(c.fromSlice), One("to_slice", c.toSlice));
    GoodEntry("roadmap_id", Leaf(c.roadmapId), Entry("from_slice", Leaf(c.fromSlice), One("to_slice", c.toSlice)));
    if c.preset != "" { GoodOne("template_preset", c.preset); }
    if c.goalAnchor != "" { GoodOne("goal_anchor", InQuotes(c.goalAnchor)); }
    var version := One("version", if c.preset != "" then "template-v2" else "template-v1");
    GoodOne("version", if c.preset != "" then "template-v2" else "template-v1");
    GoodEntry("max_chain_depth", Leaf("3"), version);
    var depth := Entry("max_chain_depth", Leaf("3"), version);
    GoodEntry("policy_refs", Items(["design_opus", "implementation_default"]), depth);
    GoodEntry("slice_template", Items(c.kinds), Entry("policy_refs", Items(["design_opus", "implementation_default"]), depth));
    hide Good;
    GoodAppend(AnchorPart(c), ShapePart(c));
    GoodAppend(PresetPart(c), Append(AnchorPart(c), ShapePart(c)));
    GoodAppend(SlicePart(c), Append(PresetPart(c), Append(AnchorPart(c), ShapePart(c))));
  }

  lemma PairGood(first: string, node: Node, second: string, raw: string)
    requires GoodKey(first) && GoodNode(node) && GoodKey(second) && GoodRaw(raw)
    ensures Good(Entry(first, node, One(second, raw)))
  {
    GoodOne(second, raw);
  }

  lemma EachPartGood(c: Config)
    requires Validated(c) && Printable(c)
    ensures Good(Switches()) && Good(BoardPart(c)) && Good(One("apply_mode", BoolText(c.applyMode)))
    ensures Good(EndpointPart(c)) && Good(AssigneePart(c)) && Good(TrustPart(c)) && Good(AllowPart(c))
    ensures Good(TransitionPart(c))
  {
    SwitchKeys();
    EndpointKeys();
    AssigneeKeys();
    ListKeys();
    FixedWords();
    TextGood(c.origin);
    TextGood(c.returnTo);
    BodyGood(c);
    hide GoodKey, Ident, QuotedText, Reserved, TransitionBody;
    PairGood("enabled", Leaf("true"), "kill_switch", "false");
    PairGood("board", Leaf(c.board), "same_board_only", "true");
    GoodOne("apply_mode", BoolText(c.applyMode));
    PairGood("expected_origin", Leaf(InQuotes(c.origin)), "expected_return_to", InQuotes(c.returnTo));
    PairGood("impl_assignee", Leaf(c.implAssignee), "review_assignee", c.reviewAssignee);
    GoodEntry("trusted_assignees", Items([c.reviewAssignee]), Nil);
    GoodEntry("ack_trigger_agent", Leaf("true"), Entry("trusted_assignees", Items([c.reviewAssignee]), Nil));
    GoodEntry("allowed_transitions", Items([c.transition]), Nil);
    TransitionKey(c);
    GoodEntry(c.transition, Group(TransitionBody(c)), Nil);
    GoodEntry("transitions", Group(Entry(c.transition, Group(TransitionBody(c)), Nil)), Nil);
  }

  lemma TransitionKey(c: Config)
    requires Validated(c) && Printable(c)
    ensures GoodKey(c.transition)
  {}

  lemma FileGood(c: Config, notes: Notes)
    requires Validated(c) && Printable(c) && Comments(notes)
    ensures GoodParts(Parts(c, notes)) && Tree(c) != Nil
  {
    TreeNonEmpty(c);
    hide Tree, Good, Skipped, BreakFree, One, Switches, BoardPart, EndpointPart, AssigneePart, TrustPart, AllowPart,
      LimitPart, TransitionPart, BoolText;
    EachPartGood(c);
    LimitsGood();
    BlankSkipped();
    BlankBefore(notes.board);
    BlankBefore(notes.apply);
  }

  lemma TreeNonEmpty(c: Config)
    ensures Tree(c) != Nil
  {}

  lemma BlankBefore(raws: seq<string>)
    requires AllSkipped(raws)
    ensures AllSkipped(BLANK + raws)
  {
    BlankSkipped();
    hide Skipped, BreakFree;
  }

  lemma BlankSkipped()
    ensures AllSkipped(BLANK)
  {}

  // ----- looking values up -----

  /** The last node under a key. */
  function Lookup(entries: Entries, key: string): Option<Node> {
    match entries
    case Nil => None
    case Entry(k, node, tail) =>
      var later := Lookup(tail, key);
      if later.Some? then later else if k == key then Some(node) else None
  }

  lemma {:induction false} EnteredLookup(acc: map<string, Value>, entries: Entries, key: string)
    requires Lookup(entries, key).Some?
    ensures key in Entered(acc, entries) && Entered(acc, entries)[key] == NodeValue(Lookup(entries, key).value)
    decreases entries
  {
    var acc' := acc[entries.key := NodeValue(entries.node)];
    if Lookup(entries.tail, key).Some? { EnteredLookup(acc', entries.tail, key); } else { EnteredOther(acc', entries.tail, key); }
  }

  lemma {:induction false} EnteredOther(acc: map<string, Value>, entries: Entries, key: string)
    requires Lookup(entries, key) == None && key in acc
    ensures key in Entered(acc, entries) && Entered(acc, entries)[key] == acc[key]
    decreases entries
  {
    if entries != Nil { EnteredOther(acc[entries.key := NodeValue(entries.node)], entries.tail, key); }
  }

  lemma {:induction false} LookupAppend(a: Entries, b: Entries, key: string)
    ensures Lookup(Append(a, b), key) == if Lookup(b, key).Some? then Lookup(b, key) else Lookup(a, key)
  {
    match a case Nil => case Entry(k, n, t) => LookupAppend(t, b, key);
  }

  /** The last part that has the key. */
  function PartLookup(parts: seq<(seq<string>, Entries)>, key: string): Option<Node> {
    if parts == [] then None
    else
      var later := PartLookup(parts[1..], key);
      if later.Some? then later else Lookup(parts[0].1, key)
  }

  lemma {:induction false} MergedLookup(parts: seq<(seq<string>, Entries)>, key: string)
    ensures Lookup(Merged(parts), key) == PartLookup(parts, key)
  {
    if parts != [] {
      MergedLookup(parts[1..], key);
      LookupAppend(parts[0].1, Merged(parts[1..]), key);
    }
  }

  // ----- the fields of the file -----

  function Blank(): Notes { Notes([], [], [], []) }

  /** The part of the tree a top-level key stands in. */
  lemma TopLookup(c: Config, key: string)
    requires Lookup(LimitPart(), key) == None && key != "transitions"
    ensures Lookup(Tree(c), key) ==
      if key == "allowed_transitions" then Some(Items([c.transition]))
      else if key == "trusted_assignees" then Some(Items([c.reviewAssignee]))
      else if key == "ack_trigger_agent" then Some(Leaf("true"))
      else if key == "review_assignee" then Some(Leaf(c.reviewAssignee))
      else if key == "impl_assignee" then Some(Leaf(c.implAssignee))
      else if key == "expected_return_to" then Some(Leaf(InQuotes(c.returnTo)))
      else if key == "expected_origin" then Some(Leaf(InQuotes(c.origin)))
      else if key == "apply_mode" then Some(Leaf(BoolText(c.applyMode)))
      else if key == "same_board_only" then Some(Leaf("true"))
      else if key == "board" then Some(Leaf(c.board))
      else if key == "kill_switch" then Some(Leaf("false"))
      else if key == "enabled" then Some(Leaf("true"))
      else None
  {
    var parts := Parts(c, Blank());
    MergedLookup(parts, key);
    hide Lookup, LimitPart, TransitionPart;
    LateParts(c, key);
    EarlyParts(c, key);
    var p7 := [(BLANK, LimitPart()), (BLANK, TransitionPart(c))];
    PartStep((BLANK, TransitionPart(c)), [], key);
    PartStep((BLANK, LimitPart()), [(BLANK, TransitionPart(c))], key);
    var p6 := [(BLANK, AllowPart(c))] + p7;
    PartStep((BLANK, AllowPart(c)), p7, key);
    var p5 := [([], TrustPart(c))] + p6;
    PartStep(([], TrustPart(c)), p6, key);
    var p4 := [(BLANK, AssigneePart(c))] + p5;
    PartStep((BLANK, AssigneePart(c)), p5, key);
    var p3 := [(BLANK, EndpointPart(c))] + p4;
    PartStep((BLANK, EndpointPart(c)), p4, key);
    var p2 := [(BLANK + [], One("apply_mode", BoolText(c.applyMode)))] + p3;
    PartStep((BLANK + [], One("apply_mode", BoolText(c.applyMode))), p3, key);
    var p1 := [(BLANK + [], BoardPart(c))] + p2;
    PartStep((BLANK + [], BoardPart(c)), p2, key);
    PartStep(([], Switches()), p1, key);
    assert parts == [([], Switches())] + p1;
  }

  lemma PartStep(head: (seq<string>, Entries), rest: seq<(seq<string>, Entries)>, key: string)
    ensures PartLookup([head] + rest, key)
         == if PartLookup(rest, key).Some? then PartLookup(rest, key) else Lookup(head.1, key)
  {
    assert ([head] + rest)[1..] == rest;
  }

  lemma LateParts(c: Config, key: string)
    ensures key != "transitions" ==> Lookup(TransitionPart(c), key) == None
    ensures Lookup(AllowPart(c), key) == if key == "allowed_transitions" then Some(Items([c.transition])) else None
    ensures Lookup(TrustPart(c), key) ==
      if key == "trusted_assignees" then Some(Items([c.reviewAssignee]))
      else if key == "ack_trigger_agent" then Some(Leaf("true")) else None
    ensures Lookup(AssigneePart(c), key) ==
      if key == "review_assignee" then Some(Leaf(c.reviewAssignee))
      else if key == "impl_assignee" then Some(Leaf(c.implAssignee)) else None
  {}

  lemma EarlyParts(c: Config, key: string)
    ensures Lookup(EndpointPart(c), key) ==
      if key == "expected_return_to" then Some(Leaf(InQuotes(c.returnTo)))
      else if key == "expected_origin" then Some(Leaf(InQuotes(c.origin))) else None
    ensures Lookup(One("apply_mode", BoolText(c.applyMode)), key) ==
      if key == "apply_mode" then Some(Leaf(BoolText(c.applyMode))) else None
    ensures Lookup(BoardPart(c), key) ==
      if key == "same_board_only" then Some(Leaf("true")) else if key == "board" then Some(Leaf(c.board)) else None
    ensures Lookup(Switches(), key) ==
      if key == "kill_switch" then Some(Leaf("false")) else if key == "enabled" then Some(Leaf("true")) else None
  {
    LookupPair("expected_origin", Leaf(InQuotes(c.origin)), "expected_return_to", InQuotes(c.returnTo), key);
    LookupPair("board", Leaf(c.board), "same_board_only", "true", key);
    LookupPair("enabled", Leaf("true"), "kill_switch", "false", key);
    LookupPair("x", Leaf("x"), "apply_mode", BoolText(c.applyMode), key);
  }

  lemma LookupPair(first: string, node: Node, second: string, raw: string, key: string)
    ensures Lookup(One(second, raw), key) == if key == second then Some(Leaf(raw)) else None
    ensures Lookup(Entry(first, node, One(second, raw)), key)
         == if key == second then Some(Leaf(raw)) else if key == first then Some(node) else None
  {}

  /** The fields of a transition's own block. */
  lemma BodyLookup(c: Config)
    ensures Lookup(TransitionBody(c), "roadmap_id") == Some(Leaf(c.roadmapId))
    ensures Lookup(TransitionBody(c), "from_slice") == Some(Leaf(c.fromSlice))
    ensures Lookup(TransitionBody(c), "to_slice") == Some(Leaf(c.toSlice))
    ensures Lookup(TransitionBody(c), "slice_template") == Some(Items(c.kinds))
    ensures c.preset != "" ==> Lookup(TransitionBody(c), "template_preset") == Some(Leaf(c.preset))
    ensures c.goalAnchor != "" ==> Lookup(TransitionBody(c), "goal_anchor") == Some(Leaf(InQuotes(c.goalAnchor)))
  {
    BodyField(c, "roadmap_id");
    BodyField(c, "from_slice");
    BodyField(c, "to_slice");
    BodyField(c, "slice_template");
    BodyField(c, "template_preset");
    BodyField(c, "goal_anchor");
  }

  lemma BodyField(c: Config, key: string)
    ensures Lookup(TransitionBody(c), key) ==
      if key == "version" then Some(Leaf(if c.preset != "" then "template-v2" else "template-v1"))
      else if key == "max_chain_depth" then Some(Leaf("3"))
      else if key == "policy_refs" then Some(Items(["design_opus", "implementation_default"]))
      else if key == "slice_template" then Some(Items(c.kinds))
      else if key == "goal_anchor" && c.goalAnchor != "" then Some(Leaf(InQuotes(c.goalAnchor)))
      else if key == "template_preset" && c.preset != "" then Some(Leaf(c.preset))
      else if key == "to_slice" then Some(Leaf(c.toSlice))
      else if key == "from_slice" then Some(Leaf(c.fromSlice))
      else if key == "roadmap_id" then Some(Leaf(c.roadmapId))
      else None
  {
    var version := if c.preset != "" then "template-v2" else "template-v1";
    LookupAppend(AnchorPart(c), ShapePart(c), key);
    LookupAppend(PresetPart(c), Append(AnchorPart(c), ShapePart(c)), key);
    LookupAppend(SlicePart(c), Append(PresetPart(c), Append(AnchorPart(c), ShapePart(c))), key);
    LookupPair("max_chain_depth", Leaf("3"), "version", version, key);
    LookupPair("from_slice", Leaf(c.fromSlice), "to_slice", c.toSlice, key);
    LookupPair("x", Leaf("x"), "template_preset", c.preset, key);
    LookupPair("x", Leaf("x"), "goal_anchor", InQuotes(c.goalAnchor), key);
  }

  lemma LimitLookup(key: string)
    requires key !in {"max_chain_depth", "max_promotions_per_roadmap", "promote_cooldown_seconds",
      "require_review_edge", "require_ack_edge", "require_trusted_assignee", "require_origin_match",
      "require_policy_resolution"}
    ensures Lookup(LimitPart(), key) == None
  {
    var e6 := Entry("require_origin_match", Leaf("true"), One("require_policy_resolution", "true"));
    LookupPair("require_origin_match", Leaf("true"), "require_policy_resolution", "true", key);
    var e5 := Entry("require_trusted_assignee", Leaf("true"), e6);
    var e4 := Entry("require_ack_edge", Leaf("true"), e5);
    var e3 := Entry("require_review_edge", Leaf("true"), e4);
    var e2 := Entry("promote_cooldown_seconds", Leaf("900"), e3);
    assert Lookup(e5, key) == None;
    assert Lookup(e3, key) == None;
    assert Lookup(e2, key) == None;
  }

  lemma {:induction false} LastPart(parts: seq<(seq<string>, Entries)>, key: string)
    requires parts != [] && Lookup(parts[|parts| - 1].1, key).Some?
    ensures PartLookup(parts, key) == Lookup(parts[|parts| - 1].1, key)
  {
    if |parts| > 1 {
      assert parts[1..][|parts[1..]| - 1] == parts[|parts| - 1];
      LastPart(parts[1..], key);
    }
  }

  /** Each top-level field's value, as parsed. */
  lemma TopFields(c: Config)
    ensures var d := Entered(map[], Tree(c));
      && Field(d, "board", Scalar(c.board))
      && Field(d, "apply_mode", Scalar(BoolText(c.applyMode)))
      && Field(d, "expected_origin", Scalar(InQuotes(c.origin)))
      && Field(d, "expected_return_to", Scalar(InQuotes(c.returnTo)))
      && Field(d, "impl_assignee", Scalar(c.implAssignee))
      && Field(d, "review_assignee", Scalar(c.reviewAssignee))
      && Field(d, "trusted_assignees", List([Scalar(c.reviewAssignee)]))
      && Field(d, "allowed_transitions", List([Scalar(c.transition)]))
  {
    TopField(c, "board");
    TopField(c, "apply_mode");
    TopField(c, "expected_origin");
    TopField(c, "expected_return_to");
    TopField(c, "impl_assignee");
    TopField(c, "review_assignee");
    TopField(c, "trusted_assignees");
    TopField(c, "allowed_transitions");
    hide Entered, Tree, Scalar, Lookup;
    OneScalar(c.reviewAssignee);
    OneScalar(c.transition);
  }

  lemma OneScalar(raw: string)
    ensures Scalars([raw]) == [Scalar(raw)]
  {
    assert [raw][1..] == [];
  }

  predicate TopKey(key: string) {
    key in {"board", "apply_mode", "expected_origin", "expected_return_to", "impl_assignee", "review_assignee",
      "trusted_assignees", "allowed_transitions"}
  }

  lemma TopField(c: Config, key: string)
    requires TopKey(key)
    ensures Lookup(Tree(c), key).Some?
    ensures Field(Entered(map[], Tree(c)), key, NodeValue(Lookup(Tree(c), key).value))
    ensures Lookup(Tree(c), key).value ==
      if key == "board" then Leaf(c.board)
      else if key == "apply_mode" then Leaf(BoolText(c.applyMode))
      else if key == "expected_origin" then Leaf(InQuotes(c.origin))
      else if key == "expected_return_to" then Leaf(InQuotes(c.returnTo))
      else if key == "impl_assignee" then Leaf(c.implAssignee)
      else if key == "review_assignee" then Leaf(c.reviewAssignee)
      else if key == "trusted_assignees" then Items([c.reviewAssignee])
      else Items([c.transition])
  {
    hide Entered, Tree, Scalar, Lookup, LimitPart;
    LimitLookup(key);
    TopLookup(c, key);
    EnteredLookup(map[], Tree(c), key);
  }

  /** The transition's own block, as parsed. */
  lemma TransitionField(c: Config)
    ensures Field(Entered(map[], Tree(c)), "transitions",
      Dict(map[c.transition := Dict(Entered(map[], TransitionBody(c)))]))
  {
    hide TransitionBody, Scalar;
    var parts := Parts(c, Blank());
    MergedLookup(parts, "transitions");
    assert parts[8].1 == TransitionPart(c);
    LastPart(parts, "transitions");
    EnteredLookup(map[], Tree(c), "transitions");
    var inner := Entry(c.transition, Group(TransitionBody(c)), Nil);
    assert Entered(map[], inner) == map[c.transition := Dict(Entered(map[], TransitionBody(c)))];
  }

  lemma BodyFields(c: Config)
    ensures var b := Entered(map[], TransitionBody(c));
      && Field(b, "roadmap_id", Scalar(c.roadmapId))
      && Field(b, "from_slice", Scalar(c.fromSlice))
      && Field(b, "to_slice", Scalar(c.toSlice))
      && Field(b, "slice_template", List(Scalars(c.kinds)))
      && (c.preset != "" ==> Field(b, "template_preset", Scalar(c.preset)))
      && (c.goalAnchor != "" ==> Field(b, "goal_anchor", Scalar(InQuotes(c.goalAnchor))))
  {
    hide TransitionBody, Scalar, Entered, Lookup;
    BodyLookup(c);
    EnteredLookup(map[], TransitionBody(c), "roadmap_id");
    EnteredLookup(map[], TransitionBody(c), "from_slice");
    EnteredLookup(map[], TransitionBody(c), "to_slice");
    EnteredLookup(map[], TransitionBody(c), "slice_template");
    if c.preset != "" { EnteredLookup(map[], TransitionBody(c), "template_preset"); }
    if c.goalAnchor != "" { EnteredLookup(map[], TransitionBody(c), "goal_anchor"); }
  }

  // ----- the round trip -----

  predicate Field(d: map<string, Value>, key: string, value: Value) { key in d && d[key] == value }

  function Strs(words: seq<string>): seq<Value> {
    if words == [] then [] else [Str(words[0])] + Strs(words[1..])
  }

  /** The parsed document carries exactly the supplied top-level values. */
  predicate ReturnsTop(d: map<string, Value>, c: Config) {
    && Field(d, "board", Str(c.board)) && Field(d, "apply_mode", Bool(c.applyMode))
    && Field(d, "expected_origin", Str(c.origin)) && Field(d, "expected_return_to", Str(c.returnTo))
    && Field(d, "impl_assignee", Str(c.implAssignee)) && Field(d, "review_assignee", Str(c.reviewAssignee))
    && Field(d, "trusted_assignees", List([Str(c.reviewAssignee)]))
    && Field(d, "allowed_transitions", List([Str(c.transition)]))
  }

  /** And the transition's block exactly the supplied ones. */
  predicate ReturnsBody(b: map<string, Value>, c: Config) {
    && Field(b, "roadmap_id", Str(c.roadmapId)) && Field(b, "from_slice", Str(c.fromSlice))
    && Field(b, "to_slice", Str(c.toSlice)) && Field(b, "slice_template", List(Strs(c.kinds)))
    && (c.preset != "" ==> Field(b, "template_preset", Str(c.preset)))
    && (c.goalAnchor != "" ==> Field(b, "goal_anchor", Str(c.goalAnchor)))
  }

  predicate Returns(v: Option<Value>, c: Config) {
    && v.Some? && v.value.Dict? && ReturnsTop(v.value.entries, c)
    && "transitions" in v.value.entries
    && var ts := v.value.entries["transitions"];
      ts.Dict? && c.transition in ts.entries && ts.entries[c.transition].Dict?
      && ReturnsBody(ts.entries[c.transition].entries, c)
  }

  /** No identifier reads as a bool, a null or a number. */
  predicate NoneReserved(c: Config) {
    && !Reserved(c.board) && !Reserved(c.transition) && !Reserved(c.fromSlice) && !Reserved(c.toSlice)
    && !Reserved(c.implAssignee) && !Reserved(c.reviewAssignee) && !Reserved(c.roadmapId)
  }

  lemma IdentScalarIff(s: string)
    requires Ident(s)
    ensures Scalar(s) == Str(s) <==> !Reserved(s)
  {
    IdentFacts(s);
    BareScalarIff(s);
  }

  lemma TextScalar(text: string)
    requires SafeText(text)
    ensures Scalar(InQuotes(text)) == Str(text)
  {
    var raw := InQuotes(text);
    assert raw[0] == '"' && raw[|raw| - 1] == '"' && raw[1..|raw| - 1] == text;
    TightStrips(raw);
  }

  lemma BoolScalar(b: bool)
    ensures Scalar(BoolText(b)) == Bool(b)
  {
    TightStrips(BoolText(b));
    assert Lower("true") == "true" && Lower("false") == "false";
  }

  lemma {:induction false} KindScalars(kinds: seq<string>)
    requires forall i :: 0 <= i < |kinds| ==> Ident(kinds[i]) && !Reserved(kinds[i])
    ensures Scalars(kinds) == Strs(kinds)
  {
    hide Reserved, Ident, Scalar;
    if kinds != [] {
      IdentScalarIff(kinds[0]);
      KindScalars(kinds[1..]);
    }
  }

  /** The value of a printable config's file. */
  lemma FileValue(c: Config, notes: Notes)
    requires Validated(c) && Printable(c) && Comments(notes)
    ensures Parse(Render(c, notes)) == Some(Dict(Entered(map[], Tree(c))))
  {
    hide Parse, Render, Entered, Tree;
    FileGood(c, notes);
    RenderReadBack(c, notes);
  }

  lemma TopReturnsIff(c: Config)
    requires Validated(c)
    ensures ReturnsTop(Entered(map[], Tree(c)), c) <==>
      !Reserved(c.board) && !Reserved(c.transition) && !Reserved(c.implAssignee) && !Reserved(c.reviewAssignee)
  {
    hide Entered, Tree, Scalar, Reserved, Ident;
    TopFields(c);
    IdentScalarIff(c.board);
    IdentScalarIff(c.transition);
    IdentScalarIff(c.implAssignee);
    IdentScalarIff(c.reviewAssignee);
    TextScalar(c.origin);
    TextScalar(c.returnTo);
    BoolScalar(c.applyMode);
    assert [Scalar(c.transition)][0] == Scalar(c.transition);
    assert [Scalar(c.reviewAssignee)][0] == Scalar(c.reviewAssignee);
    assert [Str(c.transition)][0] == Str(c.transition) && [Str(c.reviewAssignee)][0] == Str(c.reviewAssignee);
  }

  lemma BodyReturnsIff(c: Config)
    requires Validated(c)
    ensures ReturnsBody(Entered(map[], TransitionBody(c)), c) <==>
      !Reserved(c.roadmapId) && !Reserved(c.fromSlice) && !Reserved(c.toSlice)
  {
    hide Entered, TransitionBody, Scalar, Reserved, Ident;
    BodyFields(c);
    IdentScalarIff(c.roadmapId);
    IdentScalarIff(c.fromSlice);
    IdentScalarIff(c.toSlice);
    KindScalars(c.kinds);
    if c.preset != "" { IdentScalarIff(c.preset); }
    if c.goalAnchor != "" { TextScalar(c.goalAnchor); }
  }

  /** A value that carries the supplied values came from a printable config: keys
      hold no colon and strings no line break. */
  lemma ReturnsPrintable(text: string, c: Config)
    requires Returns(Parse(text), c)
    ensures Printable(c)
  {
    hide Parse, BreakFree, Plain;
    ParsePlain(text);
    var d := Parse(text).value.entries;
    PlainEntry(d, "expected_origin");
    PlainEntry(d, "expected_return_to");
    PlainStr(c.origin);
    PlainStr(c.returnTo);
    PlainEntry(d, "transitions");
    var ts := d["transitions"].entries;
    PlainEntry(ts, c.transition);
    if c.goalAnchor != "" {
      PlainEntry(ts[c.transition].entries, "goal_anchor");
      PlainStr(c.goalAnchor);
    } else {
      EmptyBreakFree();
    }
  }

  lemma PlainEntry(entries: map<string, Value>, key: string)
    requires Plain(Dict(entries)) && key in entries
    ensures ':' !in key && Plain(entries[key])
  {}

  lemma PlainStr(text: string)
    ensures Plain(Str(text)) ==> BreakFree(text)
  {}

  lemma EmptyBreakFree()
    ensures BreakFree("")
  {}

  /** Parsing the rendered config gives back exactly the supplied values if and
      only if no identifier is a reserved word or number, the transition has no
      colon and no text has a line-boundary character. */
  lemma RoundTripIff(c: Config, notes: Notes)
    requires Validated(c) && Comments(notes)
    ensures Returns(Parse(Render(c, notes)), c) <==> Printable(c) && NoneReserved(c)
  {
    hide Parse, Render, Entered, Tree, TransitionBody, Reserved, Printable, Validated, ReturnsTop, ReturnsBody;
    if Returns(Parse(Render(c, notes)), c) { ReturnsPrintable(Render(c, notes), c); }
    if Printable(c) {
      FileValue(c, notes);
      TransitionField(c);
      TopReturnsIff(c);
      BodyReturnsIff(c);
    }
  }

  /** Lower-case words that are none of the five words. */
  predicate PlainWord(s: string) {
    && s != "" && 'a' <= s[0] <= 'z'
    && (forall i :: 0 <= i < |s| ==> 'a' <= s[i] <= 'z' || '0' <= s[i] <= '9' || s[i] == '_' || s[i] == '-')
    && s != "true" && s != "yes" && s != "false" && s != "no" && s != "null"
  }

  lemma PlainWordFacts(s: string)
    requires PlainWord(s)
    ensures Ident(s) && !Reserved(s)
  {
    assert Lower(s) == s;
    assert Unsigned(s) == s;
    forall i | 0 <= i < |s| ensures s[i] != '.' {}
  }

  lemma StepWords(steps: seq<T.TaskStep>)
    requires steps == T.LEGACY_STEPS || steps == T.RESEARCH_STEPS || steps == T.SHAMAN_STEPS
    ensures forall i :: 0 <= i < |steps| ==> PlainWord(steps[i].kind)
  {}

  lemma PresetKinds(preset: string)
    requires T.Resolve(preset, []).Some?
    ensures var kinds := T.Kinds(T.Resolve(preset, []).value);
      kinds != [] && forall i :: 0 <= i < |kinds| ==> Ident(kinds[i]) && !Reserved(kinds[i])
  {
    hide Ident, Reserved, T.ValidSteps, PlainWord;
    var steps := T.Resolve(preset, []).value;
    if preset == "" {
      DefaultSteps();
    }
    StepWords(steps);
    forall i | 0 <= i < |steps| ensures Ident(steps[i].kind) && !Reserved(steps[i].kind) {
      PlainWordFacts(steps[i].kind);
    }
    T.ResolvedShape(preset, []);
  }

  lemma DefaultSteps()
    ensures T.LegacySteps(T.Kinds(T.LEGACY_STEPS)) == T.LEGACY_STEPS
  {}

  lemma PresetName(preset: string)
    requires preset != "" && T.Resolve(preset, []).Some?
    ensures !Reserved(preset)
  {
    assert T.Preset(preset).Some?;
    PresetWords();
    PlainWordFacts(preset);
  }

  lemma PresetWords()
    ensures PlainWord("impl-review-fanin") && PlainWord("research-loop") && PlainWord("shaman-loop")
  {}

  lemma DottedIdent(board: string)
    requires Ident(board)
    ensures Ident(board + ".roadmap")
  {
    var s := board + ".roadmap";
    forall i | 0 <= i < |s| ensures IdentChar(s[i]) {
      if i < |board| { assert s[i] == board[i]; } else { assert s[i] == ".roadmap"[i - |board|]; }
    }
  }

  lemma ValidateSound(q: Inputs)
    requires Validate(q).Some?
    ensures Validated(Validate(q).value)
  {
    hide Ident, Reserved, Strip, TextChar;
    var c := Validate(q).value;
    PresetKinds(c.preset);
    if c.preset != "" { PresetName(c.preset); }
    if q.roadmapId == "" { DottedIdent(c.board); }
    EmptyStrip();
  }

  lemma EmptyStrip()
    ensures Strip("") == ""
  {}

  /** The same from the flags on: every input the validators accept. */
  lemma InputsRoundTripIff(q: Inputs, notes: Notes)
    requires Validate(q).Some? && Comments(notes)
    ensures var c := Validate(q).value;
      Returns(Parse(Render(c, notes)), c) <==> Printable(c) && NoneReserved(c)
  {
    hide Validate, Returns, Parse, Render, Printable, NoneReserved, Validated;
    ValidateSound(q);
    RoundTripIff(Validate(q).value, notes);
  }
}
