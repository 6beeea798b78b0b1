/** Template presets and the shape of every resolved template
    (roadmap_templates.py). */
module RoadmapTemplates {
  import opened Domain

  datatype Role = Work | Review | Terminal

  datatype TaskStep = TaskStep(kind: string, role: Role)

  const LEGACY_PRESET := "impl-review-fanin"

  const LEGACY_STEPS := [TaskStep("impl", Work), TaskStep("review", Review), TaskStep("fanin", Terminal)]

  const RESEARCH_STEPS := [
    TaskStep("scout", Work), TaskStep("evidence", Work), TaskStep("scorecard", Work), TaskStep("review", Review), TaskStep("brief", Terminal)]

  const SHAMAN_STEPS := [
    TaskStep("design", Work), TaskStep("impl", Work), TaskStep("browser_e2e", Work), TaskStep("review", Review), TaskStep("fanin", Terminal)]

  function Preset(name: string): Option<seq<TaskStep>> {
    if name == LEGACY_PRESET then Some(LEGACY_STEPS)
    else if name == "research-loop" then Some(RESEARCH_STEPS)
    else if name == "shaman-loop" then Some(SHAMAN_STEPS)
    else None
  }

  function Kinds(steps: seq<TaskStep>): (kinds: seq<string>)
    ensures |kinds| == |steps| && forall i :: 0 <= i < |steps| ==> kinds[i] == steps[i].kind
  {
    seq(|steps|, i requires 0 <= i < |steps| => steps[i].kind)
  }

  /** An inferred step: the legacy preset's own kinds keep their role, a review is
      a review, the last step is terminal, everything else is work. */
  function LegacyStep(kind: string, index: nat, total: nat): TaskStep {
    if kind == "impl" then TaskStep(kind, Work)
    else if kind == "review" then TaskStep(kind, Review)
    else if kind == "fanin" then TaskStep(kind, Terminal)
    else TaskStep(kind, if index + 1 == total then Terminal else Work)
  }

  function LegacySteps(kinds: seq<string>): (steps: seq<TaskStep>)
    ensures |steps| == |kinds|
    ensures forall i :: 0 <= i < |kinds| ==> steps[i] == LegacyStep(kinds[i], i, |kinds|)
  {
    seq(|kinds|, i requires 0 <= i < |kinds| => LegacyStep(kinds[i], i, |kinds|))
  }

  /** The letters and digits beyond ASCII, whichever they are. */
  const OTHER_ALNUM: set<char>

  predicate Alnum(c: char) {
    '0' <= c <= '9' || 'a' <= c <= 'z' || 'A' <= c <= 'Z' || (c > '\U{7f}' && c in OTHER_ALNUM)
  }

  predicate IdentifierSafe(kind: string) {
    && (exists i :: 0 <= i < |kind| && Alnum(kind[i]))
    && (forall i :: 0 <= i < |kind| ==> Alnum(kind[i]) || kind[i] == '_' || kind[i] == '-')
  }

  predicate Distinct(kinds: seq<string>) {
    forall i, j :: 0 <= i < j < |kinds| ==> kinds[i] != kinds[j]
  }

  function CountRole(steps: seq<TaskStep>, role: Role): nat {
    if steps == [] then 0
    else CountRole(steps[..|steps| - 1], role) + (if steps[|steps| - 1].role == role then 1 else 0)
  }

  /** _validate_resolved. */
  predicate ValidSteps(steps: seq<TaskStep>) {
    && steps != []
    && Distinct(Kinds(steps))
    && (forall i :: 0 <= i < |steps| ==> IdentifierSafe(steps[i].kind))
    && CountRole(steps, Review) == 1
    && CountRole(steps, Terminal) == 1
    && steps[|steps| - 1].role == Terminal
  }

  /** resolve_template: None stands for its ValueError. */
  function Resolve(preset: string, explicit: seq<string>): Option<seq<TaskStep>> {
    if preset != "" then
      match Preset(preset)
      case None => None
      case Some(steps) =>
        if explicit != [] && explicit != Kinds(steps) then None
        else if ValidSteps(steps) then Some(steps) else None
    else
      var steps := LegacySteps(if explicit == [] then Kinds(LEGACY_STEPS) else explicit);
      if ValidSteps(steps) then Some(steps) else None
  }

  lemma {:induction false} RoleAt(steps: seq<TaskStep>, role: Role, i: nat)
    requires i < |steps| && steps[i].role == role
    ensures CountRole(steps, role) >= 1
  {
    if i < |steps| - 1 { RoleAt(steps[..|steps| - 1], role, i); }
  }

  lemma {:induction false} RolesAt(steps: seq<TaskStep>, role: Role, i: nat, j: nat)
    requires i < j < |steps| && steps[i].role == role && steps[j].role == role
    ensures CountRole(steps, role) >= 2
  {
    if j < |steps| - 1 {
      RolesAt(steps[..|steps| - 1], role, i, j);
    } else {
      RoleAt(steps[..|steps| - 1], role, i);
    }
  }

  lemma {:induction false} RoleNowhere(steps: seq<TaskStep>, role: Role)
    requires forall i :: 0 <= i < |steps| ==> steps[i].role != role
    ensures CountRole(steps, role) == 0
  {
    if steps != [] { RoleNowhere(steps[..|steps| - 1], role); }
  }

  lemma {:induction false} RoleOnce(steps: seq<TaskStep>, role: Role, at: nat)
    requires at < |steps| && steps[at].role == role
    requires forall i :: 0 <= i < |steps| && i != at ==> steps[i].role != role
    ensures CountRole(steps, role) == 1
  {
    var init := steps[..|steps| - 1];
    if at == |steps| - 1 { RoleNowhere(init, role); } else { RoleOnce(init, role, at); }
  }

  lemma ResolveValid(preset: string, explicit: seq<string>)
    requires Resolve(preset, explicit).Some?
    ensures ValidSteps(Resolve(preset, explicit).value)
    ensures explicit != [] ==> Kinds(Resolve(preset, explicit).value) == explicit
  {
    hide ValidSteps, Preset, LegacyStep;
    var steps := Resolve(preset, explicit).value;
    if preset == "" && explicit != [] {
      LegacyKinds(explicit);
    }
  }

  lemma LegacyKinds(kinds: seq<string>)
    ensures Kinds(LegacySteps(kinds)) == kinds
  {}

  /** Whatever resolves is a chain with one review before one terminal step. */
  lemma ResolvedShape(preset: string, explicit: seq<string>)
    requires Resolve(preset, explicit).Some?
    ensures var steps := Resolve(preset, explicit).value;
      && steps != [] && Distinct(Kinds(steps)) && (explicit != [] ==> Kinds(steps) == explicit)
      && steps[|steps| - 1].role == Terminal
      && (exists at :: 0 <= at < |steps| - 1 && steps[at].role == Review)
      && (forall i, j :: 0 <= i < j < |steps| && steps[i].role == steps[j].role ==> steps[i].role == Work)
  {
    ResolveValid(preset, explicit);
    hide Resolve, ValidSteps;
    StepsShape(Resolve(preset, explicit).value);
  }

  lemma StepsShape(steps: seq<TaskStep>)
    requires ValidSteps(steps)
    ensures steps != [] && Distinct(Kinds(steps)) && steps[|steps| - 1].role == Terminal
    ensures exists at :: 0 <= at < |steps| - 1 && steps[at].role == Review
    ensures forall i, j :: 0 <= i < j < |steps| && steps[i].role == steps[j].role ==> steps[i].role == Work
  {
    hide Distinct, IdentifierSafe, CountRole, Kinds;
    if forall i :: 0 <= i < |steps| ==> steps[i].role != Review { RoleNowhere(steps, Review); }
    forall i, j | 0 <= i < j < |steps| && steps[i].role == steps[j].role ensures steps[i].role == Work {
      if steps[i].role != Work { RolesAt(steps, steps[i].role, i, j); }
    }
    var at :| 0 <= at < |steps| && steps[at].role == Review;
    assert at < |steps| - 1;
  }

  /** Exactly which explicit sequences are accepted without a named preset. */
  lemma LegacyResolvesIff(kinds: seq<string>)
    requires kinds != []
    ensures Resolve("", kinds).Some? <==>
      && Distinct(kinds) && (forall i :: 0 <= i < |kinds| ==> IdentifierSafe(kinds[i]))
      && "review" in kinds && kinds[|kinds| - 1] != "review" && kinds[|kinds| - 1] != "impl"
      && "fanin" !in kinds[..|kinds| - 1]
  {
    hide IdentifierSafe, CountRole;
    var steps := LegacySteps(kinds);
    LegacyKinds(kinds);
    var last := |kinds| - 1;
    if Distinct(kinds) && "review" in kinds && kinds[last] != "review" && kinds[last] != "impl"
       && "fanin" !in kinds[..last]
    {
      var at :| 0 <= at < |kinds| && kinds[at] == "review";
      RoleOnce(steps, Review, at);
      forall i | 0 <= i < last ensures steps[i].role != Terminal {
        assert kinds[..last][i] == kinds[i];
      }
      RoleOnce(steps, Terminal, last);
      assert (forall i :: 0 <= i < |kinds| ==> IdentifierSafe(kinds[i])) ==> ValidSteps(steps);
    }
    if ValidSteps(steps) {
      if "review" !in kinds { RoleNowhere(steps, Review); }
      if "fanin" in kinds[..last] {
        var i :| 0 <= i < last && kinds[i] == "fanin";
        RolesAt(steps, Terminal, i, last);
      }
    }
  }

  lemma SafeKind(kind: string)
    requires kind != "" && Alnum(kind[0])
    requires forall i :: 0 <= i < |kind| ==> Alnum(kind[i]) || kind[i] == '_'
    ensures IdentifierSafe(kind)
  {}

  /** A preset of work steps, a review and a terminal step is valid. */
  lemma ReviewThenTerminal(steps: seq<TaskStep>)
    requires |steps| >= 2 && steps[|steps| - 2].role == Review && steps[|steps| - 1].role == Terminal
    requires forall i :: 0 <= i < |steps| - 2 ==> steps[i].role == Work
    requires forall i :: 0 <= i < |steps| ==> IdentifierSafe(steps[i].kind)
    requires Distinct(Kinds(steps))
    ensures ValidSteps(steps)
  {
    hide IdentifierSafe, Distinct, CountRole;
    RoleOnce(steps, Review, |steps| - 2);
    RoleOnce(steps, Terminal, |steps| - 1);
  }

  lemma PresetKinds(steps: seq<TaskStep>)
    requires steps == LEGACY_STEPS || steps == RESEARCH_STEPS || steps == SHAMAN_STEPS
    ensures forall i :: 0 <= i < |steps| ==> IdentifierSafe(steps[i].kind)
  {
    hide IdentifierSafe;
    forall i | 0 <= i < |steps| ensures IdentifierSafe(steps[i].kind) {
      SafeKind(steps[i].kind);
    }
  }

  /** The three presets are valid as they stand. */
  lemma PresetsResolve(name: string)
    requires Preset(name).Some?
    ensures Resolve(name, []) == Preset(name)
  {
    hide IdentifierSafe, CountRole, ValidSteps;
    var steps := Preset(name).value;
    PresetKinds(steps);
    ReviewThenTerminal(steps);
  }
}
