/** Validation of an owner's submission against its input contract
    (input_contract.py): all of it is accepted, or none of it. */
module InputContracts {
  import opened Domain

  datatype Authority = SystemField | OwnerField | VerifierField

  datatype Field = Field(name: string, authority: Authority, required: bool, allowed: seq<string>)

  datatype Refusal =
    | UnknownField(name: string)
    | NotOwnerAuthority(name: string)
    | ValueNotAllowed(name: string)
    | MissingRequired(name: string)

  /** The definition a name stands for: the last field that carries it. */
  function Known(fields: seq<Field>, name: string): Option<Field> {
    if fields == [] then None
    else if fields[|fields| - 1].name == name then Some(fields[|fields| - 1])
    else Known(fields[..|fields| - 1], name)
  }

  /** What is wrong with the submission, one refusal per fault. */
  ghost predicate Faulty(fields: seq<Field>, values: map<string, string>, r: Refusal) {
    match r
    case UnknownField(n) => n in values && Known(fields, n) == None
    case NotOwnerAuthority(n) =>
      n in values && Known(fields, n).Some? && Known(fields, n).value.authority != OwnerField
    case ValueNotAllowed(n) =>
      n in values && Known(fields, n).Some? && Known(fields, n).value.authority == OwnerField
      && Known(fields, n).value.allowed != [] && values[n] !in Known(fields, n).value.allowed
    case MissingRequired(n) =>
      n !in values && (exists f :: f in fields && f.name == n && f.authority == OwnerField)
      && Known(fields, n).Some? && Known(fields, n).value.required
  }

  lemma {:induction false} KnownExists(fields: seq<Field>, f: Field)
    requires f in fields
    ensures Known(fields, f.name).Some?
  {
    if fields[|fields| - 1].name != f.name {
      KnownExists(fields[..|fields| - 1], f);
    }
  }

  /** The refusal one submitted value earns, if any. */
  function Judge(fields: seq<Field>, name: string, value: string): Option<Refusal> {
    match Known(fields, name)
    case None => Some(UnknownField(name))
    case Some(f) =>
      if f.authority != OwnerField then Some(NotOwnerAuthority(name))
      else if f.allowed != [] && value !in f.allowed then Some(ValueNotAllowed(name))
      else None
  }

  predicate Misses(fields: seq<Field>, values: map<string, string>, f: Field) {
    f.authority == OwnerField && f.name !in values
    && Known(fields, f.name).Some? && Known(fields, f.name).value.required
  }

  /** validate_owner_submission. The refusals are exactly the faults; a faultless
      submission comes back whole and a faulty one not at all. */
  method Validate(fields: seq<Field>, values: map<string, string>)
    returns (clean: map<string, string>, errors: set<Refusal>)
    ensures forall r :: r in errors <==> Faulty(fields, values, r)
    ensures clean == if errors == {} then values else map[]
  {
    errors, clean := {}, map[];
    var todo := values.Keys;
    while todo != {}
      invariant todo <= values.Keys
      invariant forall r :: r in errors <==>
        Faulty(fields, values, r) && !r.MissingRequired? && r.name !in todo
      invariant forall n :: n in clean <==> n in values && n !in todo && Judge(fields, n, values[n]) == None
      invariant forall n :: n in clean ==> clean[n] == values[n]
    {
      var name :| name in todo;
      todo := todo - {name};
      match Judge(fields, name, values[name]) {
        case None => clean := clean[name := values[name]];
        case Some(r) => errors := errors + {r};
      }
    }
    var i := 0;
    while i < |fields|
      invariant 0 <= i <= |fields|
      invariant forall r :: r in errors && !r.MissingRequired? <==>
        Faulty(fields, values, r) && !r.MissingRequired?
      invariant forall r :: r in errors && r.MissingRequired? ==> Faulty(fields, values, r)
      invariant forall j :: 0 <= j < i && Misses(fields, values, fields[j]) ==> MissingRequired(fields[j].name) in errors
      invariant forall n :: n in clean <==> n in values && Judge(fields, n, values[n]) == None
      invariant forall n :: n in clean ==> clean[n] == values[n]
    {
      var f := fields[i];
      KnownExists(fields, f);
      if Misses(fields, values, f) {
        errors := errors + {MissingRequired(f.name)};
      }
      i := i + 1;
    }
    if errors != {} {
      clean := map[];
    } else {
      forall n | n in values ensures n in clean {
        if Judge(fields, n, values[n]) != None {
          assert Faulty(fields, values, Judge(fields, n, values[n]).value);
        }
      }
    }
  }
}
