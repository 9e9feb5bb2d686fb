/**
 The event contracts of shared/events/schema.js: subject patterns, the
 validator, and the sample generator that must satisfy it.
 */
module EventSchema {
  import opened Text
  import opened Wrappers

  // ---------------------------------------------------------------- data

  datatype Field = Field(key: string, spec: Spec)

  /** 'string|null', 'literal:x', … ; `{ $array: spec }` ; a nested object of required fields. */
  datatype Spec = Leaf(text: string) | ArrayOf(item: Spec) | Fields(fields: seq<Field>)

  datatype Value =
    | VUndefined
    | VNull
    | VString(text: string)
    | VNumber(number: int)
    | VBoolean(flag: bool)
    | VArray(items: seq<Value>)
    | VObject(props: map<string, Value>)

  datatype Shape = Shape(subject: string, required: seq<Field>, optional: seq<Field>)

  type Schema = map<string, seq<Shape>>

  datatype PathStep = AtKey(key: string) | AtIndex(index: nat)

  datatype Problem =
    | Missing(path: seq<PathStep>)
    | Mismatch(path: seq<PathStep>, expected: string, actual: string)
    | NotAnEvent
    | UnknownType
    | UnexpectedSubject

  // ---------------------------------------------------------------- subjects

  predicate TokenMatches(p: string, s: string) {
    p == "*" || p == s
  }

  /** NATS wildcards: '*' is one token, '>' one or more trailing tokens. */
  predicate Matches(p: seq<string>, s: seq<string>) {
    if p == [] then s == []
    else if p[0] == ">" then s != []
    else s != [] && TokenMatches(p[0], s[0]) && Matches(p[1..], s[1..])
  }

  predicate SubjectFits(pattern: string, subject: string) {
    Matches(Split(pattern, '.'), Split(subject, '.'))
  }

  lemma {:induction false} MatchesItself(p: seq<string>)
    ensures Matches(p, p)
  {
    if p != [] { MatchesItself(p[1..]); }
  }

  /** Token by token: up to the first '>' if there is one, otherwise all of them and no more. */
  lemma {:induction false} MatchesTokenwise(p: seq<string>, s: seq<string>, k: nat)
    requires k <= |p| && (k < |p| ==> p[k] == ">") && forall i | 0 <= i < k :: p[i] != ">"
    ensures Matches(p, s) <==> && (if k < |p| then k < |s| else |p| == |s|)
                               && forall i | 0 <= i < k && i < |s| :: p[i] == "*" || p[i] == s[i]
  {
    if k > 0 && s != [] {
      MatchesTokenwise(p[1..], s[1..], k - 1);
      assert forall i | 0 < i < k && i < |s| :: p[i] == p[1..][i - 1] && s[i] == s[1..][i - 1];
    }
  }

  method SubjectMatches(pattern: string, subject: string) returns (r: bool)
    ensures r == SubjectFits(pattern, subject)
  {
    if pattern == subject {
      MatchesItself(Split(pattern, '.'));
      return true;
    }
    var p, s := Split(pattern, '.'), Split(subject, '.');
    assert p[0..] == p && s[0..] == s;
    for i := 0 to |p|
      invariant i <= |s| && Matches(p, s) == Matches(p[i..], s[i..])
    {
      if p[i] == ">" { return |s| > i; }
      if i >= |s| { return false; }
      if p[i] != "*" && p[i] != s[i] { return false; }
    }
    r := |p| == |s|;
  }

  // ---------------------------------------------------------------- what conforms

  function TypeOf(v: Value): string {
    match v
    case VUndefined => "undefined"
    case VNull => "null"
    case VString(_) => "string"
    case VNumber(_) => "number"
    case VBoolean(_) => "boolean"
    case VArray(_) => "array"
    case VObject(_) => "object"
  }

  const LITERAL := "literal:"

  predicate IsLiteral(text: string) {
    LITERAL <= text
  }

  predicate LeafAllows(text: string, v: Value) {
    if IsLiteral(text) then v == VString(text[|LITERAL|..])
    else text == "any" || TypeOf(v) in Split(text, '|')
  }

  predicate Present(props: map<string, Value>, key: string) {
    key in props && props[key] != VUndefined
  }

  /** The contract a spec stands for. */
  ghost predicate Conforms(spec: Spec, v: Value)
    decreases spec
  {
    match spec
    case Leaf(text) => LeafAllows(text, v)
    case ArrayOf(item) => v.VArray? && forall i | 0 <= i < |v.items| :: Conforms(item, v.items[i])
    case Fields(fields) =>
      v.VObject? && forall k | 0 <= k < |fields| ::
        Present(v.props, fields[k].key) && Conforms(fields[k].spec, v.props[fields[k].key])
  }

  lemma PlainNameAdmits(text: string, v: Value)
    requires '|' !in text && !IsLiteral(text) && text != "any"
    ensures Conforms(Leaf(text), v) <==> TypeOf(v) == text
  {
    SplitPlain(text, '|');
    hide Split, TypeOf;
  }

  /** The type names are told apart by their first letter and their length. */
  lemma TypesByLetter(v: Value)
    ensures TypeOf(v) != "" && (TypeOf(v)[0] == 's' <==> v.VString?) && (TypeOf(v)[0] == 'b' <==> v.VBoolean?)
    ensures (TypeOf(v)[0] == 'a' <==> v.VArray?) && (TypeOf(v)[0] == 'o' <==> v.VObject?)
    ensures (TypeOf(v)[0] == 'n' && |TypeOf(v)| == 4 <==> v.VNull?) && (TypeOf(v)[0] == 'n' && |TypeOf(v)| == 6 <==> v.VNumber?)
  {
  }

  lemma NullAdmits(v: Value)
    ensures Conforms(Leaf("null"), v) <==> v.VNull?
  {
    PlainNameAdmits("null", v);
    TypesByLetter(v);
    hide LeafAllows;
  }

  lemma StringAdmits(v: Value)
    ensures Conforms(Leaf("string"), v) <==> v.VString?
  {
    PlainNameAdmits("string", v);
    TypesByLetter(v);
    hide LeafAllows;
  }

  lemma NumberAdmits(v: Value)
    ensures Conforms(Leaf("number"), v) <==> v.VNumber?
  {
    PlainNameAdmits("number", v);
    TypesByLetter(v);
    hide LeafAllows;
  }

  lemma BooleanAdmits(v: Value)
    ensures Conforms(Leaf("boolean"), v) <==> v.VBoolean?
  {
    PlainNameAdmits("boolean", v);
    TypesByLetter(v);
    hide LeafAllows;
  }

  lemma ArrayAdmits(v: Value)
    ensures Conforms(Leaf("array"), v) <==> v.VArray?
  {
    PlainNameAdmits("array", v);
    TypesByLetter(v);
    hide LeafAllows;
  }

  lemma ObjectAdmits(v: Value)
    ensures Conforms(Leaf("object"), v) <==> v.VObject?
  {
    PlainNameAdmits("object", v);
    TypesByLetter(v);
    hide LeafAllows;
  }

  /** What each type name admits. */
  lemma TypeNamesAdmit(v: Value)
    ensures Conforms(Leaf("null"), v) <==> v.VNull?
    ensures Conforms(Leaf("string"), v) <==> v.VString?
    ensures Conforms(Leaf("number"), v) <==> v.VNumber?
    ensures Conforms(Leaf("boolean"), v) <==> v.VBoolean?
    ensures Conforms(Leaf("array"), v) <==> v.VArray?
    ensures Conforms(Leaf("object"), v) <==> v.VObject?
    ensures Conforms(Leaf("any"), v)
  {
    assert LeafAllows("any", v) by { AnyAdmits(v); }
    NullAdmits(v);
    StringAdmits(v);
    NumberAdmits(v);
    BooleanAdmits(v);
    ArrayAdmits(v);
    ObjectAdmits(v);
    hide LeafAllows;
  }

  lemma AnyAdmits(v: Value)
    ensures LeafAllows("any", v)
  {
    hide TypeOf, Split;
  }

  /** A required key must be there, and not undefined, whatever its value may otherwise be. */
  lemma RequiredMeansPresent(key: string, props: map<string, Value>)
    ensures Conforms(Fields([Field(key, Leaf("any"))]), VObject(props)) <==> key in props && props[key] != VUndefined
  {
    var fields := [Field(key, Leaf("any"))];
    if key in props { AnyAdmits(props[key]); }
    hide LeafAllows;
    assert fields[0].key == key;
  }

  lemma LiteralIsNoUnion(a: string, b: string)
    requires '|' !in a && !IsLiteral(a)
    ensures !IsLiteral(a + "|" + b)
  {
    var text := a + "|" + b;
    assert text[|a|] == '|' && '|' !in LITERAL;
    assert |a| < |LITERAL| ==> LITERAL[|a|] in LITERAL;
    assert |a| >= |LITERAL| ==> text[..|LITERAL|] == a[..|LITERAL|];
  }

  /** A bar means either: 'string|null' admits what 'string' admits and what 'null' admits. */
  lemma UnionAdmitsEither(a: string, b: string, v: Value)
    requires '|' !in a && !IsLiteral(a) && !IsLiteral(b) && a != "any" && b != "any"
    ensures Conforms(Leaf(a + "|" + b), v) <==> Conforms(Leaf(a), v) || Conforms(Leaf(b), v)
  {
    SplitPlain(a, '|');
    SplitAt(a, '|', b);
    LiteralIsNoUnion(a, b);
    assert a + ['|'] + b == a + "|" + b;
    assert (a + "|" + b)[|a|] == '|' && '|' !in "any";
    hide Split, TypeOf;
  }

  /** A literal admits that text and nothing else. */
  lemma LiteralAdmitsItself(text: string, v: Value)
    ensures Conforms(Leaf(LITERAL + text), v) <==> v == VString(text)
  {
    assert (LITERAL + text)[|LITERAL|..] == text;
  }

  /** Required keys present and conforming, optional ones conforming where present. */
  ghost predicate FitsShape(shape: Shape, props: map<string, Value>) {
    && Conforms(Fields(shape.required), VObject(props))
    && forall k | 0 <= k < |shape.optional| && Present(props, shape.optional[k].key) ::
         Conforms(shape.optional[k].spec, props[shape.optional[k].key])
  }

  predicate Candidate(shape: Shape, subject: Option<string>) {
    subject.None? || SubjectFits(shape.subject, subject.value)
  }

  predicate KnownEvent(schema: Schema, event: Value) {
    event.VObject? && "type" in event.props && event.props["type"].VString? && event.props["type"].text in schema
  }

  ghost predicate Valid(schema: Schema, event: Value, subject: Option<string>) {
    && KnownEvent(schema, event)
    && var shapes := schema[event.props["type"].text];
       exists i | 0 <= i < |shapes| :: Candidate(shapes[i], subject) && FitsShape(shapes[i], event.props)
  }

  // ---------------------------------------------------------------- what the checker reports

  function LeafProblems(text: string, v: Value, path: seq<PathStep>): seq<Problem> {
    if LeafAllows(text, v) then [] else [Mismatch(path, text, TypeOf(v))]
  }

  function Problems(spec: Spec, v: Value, path: seq<PathStep>): seq<Problem>
    decreases spec, 0
  {
    match spec
    case Leaf(text) => LeafProblems(text, v, path)
    case ArrayOf(item) =>
      if v.VArray? then ItemProblems(item, v.items, path, 0) else [Mismatch(path, "array", TypeOf(v))]
    case Fields(fields) =>
      if v.VObject? then RequiredProblems(fields, v.props, path, 0) else [Mismatch(path, "object", TypeOf(v))]
  }

  function ItemProblems(item: Spec, items: seq<Value>, path: seq<PathStep>, i: nat): seq<Problem>
    requires i <= |items|
    decreases item, 1 + |items| - i
  {
    if i == |items| then []
    else Problems(item, items[i], path + [AtIndex(i)]) + ItemProblems(item, items, path, i + 1)
  }

  function RequiredProblem(f: Field, props: map<string, Value>, path: seq<PathStep>): seq<Problem>
    decreases f, 1
  {
    if !Present(props, f.key) then [Missing(path + [AtKey(f.key)])]
    else Problems(f.spec, props[f.key], path + [AtKey(f.key)])
  }

  function RequiredProblems(fields: seq<Field>, props: map<string, Value>, path: seq<PathStep>, k: nat): seq<Problem>
    requires k <= |fields|
    decreases fields, |fields| - k
  {
    if k == |fields| then [] else RequiredProblem(fields[k], props, path) + RequiredProblems(fields, props, path, k + 1)
  }

  function OptionalProblems(fields: seq<Field>, props: map<string, Value>, k: nat): seq<Problem>
    requires k <= |fields|
    decreases |fields| - k
  {
    if k == |fields| then []
    else
      var f := fields[k];
      (if Present(props, f.key) then Problems(f.spec, props[f.key], [AtKey(f.key)]) else [])
      + OptionalProblems(fields, props, k + 1)
  }

  function ShapeProblems(shape: Shape, props: map<string, Value>): seq<Problem> {
    RequiredProblems(shape.required, props, [], 0) + OptionalProblems(shape.optional, props, 0)
  }

  /** The checker is silent on exactly the values that conform, at every depth. */
  lemma {:induction false} SilentIffConforms(spec: Spec, v: Value, path: seq<PathStep>)
    ensures Problems(spec, v, path) == [] <==> Conforms(spec, v)
    decreases spec, 0
  {
    match spec
    case Leaf(_) =>
    case ArrayOf(item) => if v.VArray? { ItemsSilent(item, v.items, path, 0); }
    case Fields(fields) => if v.VObject? { RequiredSilent(fields, v.props, path, 0); }
  }

  lemma {:induction false} ItemsSilent(item: Spec, items: seq<Value>, path: seq<PathStep>, i: nat)
    requires i <= |items|
    ensures ItemProblems(item, items, path, i) == [] <==> forall j | i <= j < |items| :: Conforms(item, items[j])
    decreases item, 1 + |items| - i
  {
    if i < |items| {
      SilentIffConforms(item, items[i], path + [AtIndex(i)]);
      ItemsSilent(item, items, path, i + 1);
    }
  }

  lemma {:induction false} RequiredSilent(fields: seq<Field>, props: map<string, Value>, path: seq<PathStep>, k: nat)
    requires k <= |fields|
    ensures RequiredProblems(fields, props, path, k) == [] <==>
            forall j | k <= j < |fields| :: Present(props, fields[j].key) && Conforms(fields[j].spec, props[fields[j].key])
    decreases fields, |fields| - k
  {
    if k < |fields| {
      var f := fields[k];
      if Present(props, f.key) { SilentIffConforms(f.spec, props[f.key], path + [AtKey(f.key)]); }
      RequiredSilent(fields, props, path, k + 1);
    }
  }

  lemma {:induction false} OptionalSilent(fields: seq<Field>, props: map<string, Value>, k: nat)
    requires k <= |fields|
    ensures OptionalProblems(fields, props, k) == [] <==>
            forall j | k <= j < |fields| && Present(props, fields[j].key) :: Conforms(fields[j].spec, props[fields[j].key])
    decreases |fields| - k
  {
    if k < |fields| {
      var f := fields[k];
      if Present(props, f.key) { SilentIffConforms(f.spec, props[f.key], [AtKey(f.key)]); }
      OptionalSilent(fields, props, k + 1);
    }
  }

  lemma ShapeSilent(shape: Shape, props: map<string, Value>)
    ensures ShapeProblems(shape, props) == [] <==> FitsShape(shape, props)
  {
    RequiredSilent(shape.required, props, [], 0);
    OptionalSilent(shape.optional, props, 0);
  }

  // ---------------------------------------------------------------- where the problems are

  /** What is found in a value along a path of keys and indices. */
  function ValueAt(v: Value, path: seq<PathStep>): Option<Value> {
    if path == [] then Some(v)
    else match (v, path[0])
      case (VArray(items), AtIndex(i)) => if i < |items| then ValueAt(items[i], path[1..]) else None
      case (VObject(props), AtKey(key)) => if key in props then ValueAt(props[key], path[1..]) else None
      case _ => None
  }

  lemma {:induction false} ValueBelow(root: Value, path: seq<PathStep>, step: PathStep)
    requires ValueAt(root, path).Some?
    ensures ValueAt(root, path + [step]) == ValueAt(ValueAt(root, path).value, [step])
  {
    if path == [] {
      assert path + [step] == [step];
    } else {
      assert (path + [step])[1..] == path[1..] + [step];
      match (root, path[0]) {
        case (VArray(items), AtIndex(i)) => ValueBelow(items[i], path[1..], step);
        case (VObject(props), AtKey(key)) => ValueBelow(props[key], path[1..], step);
      }
    }
  }

  /** The text names the type of the value. */
  predicate NamesTypeOf(text: string, v: Value) {
    match v
    case VUndefined => text == "undefined"
    case VNull => text == "null"
    case VString(_) => text == "string"
    case VNumber(_) => text == "number"
    case VBoolean(_) => text == "boolean"
    case VArray(_) => text == "array"
    case VObject(_) => text == "object"
  }

  /**
   The problem is where it says: a mismatch at a value that is there, is not what was
   expected and is what it is said to be; a missing key in an object that lacks it.
   */
  ghost predicate Located(root: Value, p: Problem) {
    match p
    case Mismatch(path, expected, actual) =>
      var found := ValueAt(root, path);
      found.Some? && !Conforms(Leaf(expected), found.value) && NamesTypeOf(actual, found.value)
    case Missing(path) =>
      && path != [] && path[|path| - 1].AtKey?
      && var holder := ValueAt(root, path[..|path| - 1]);
         holder.Some? && holder.value.VObject? && !Present(holder.value.props, path[|path| - 1].key)
    case _ => false
  }

  /** Every problem the checker reports below a place of the value is located there. */
  lemma {:induction false} ProblemsAreLocated(root: Value, spec: Spec, v: Value, path: seq<PathStep>, p: Problem)
    requires ValueAt(root, path) == Some(v) && p in Problems(spec, v, path)
    ensures Located(root, p)
    decreases spec, 0
  {
    TypeNamesAdmit(v);
    match spec {
      case Leaf(_) =>
      case ArrayOf(item) => if v.VArray? { ItemsAreLocated(root, item, v.items, path, 0, p); }
      case Fields(fields) => if v.VObject? { RequiredAreLocated(root, fields, v.props, path, 0, p); }
    }
    hide LeafAllows;
  }

  lemma {:induction false} ItemsAreLocated(root: Value, item: Spec, items: seq<Value>, path: seq<PathStep>, i: nat, p: Problem)
    requires i <= |items| && ValueAt(root, path) == Some(VArray(items)) && p in ItemProblems(item, items, path, i)
    ensures Located(root, p)
    decreases item, 1 + |items| - i
  {
    hide Located;
    if p in Problems(item, items[i], path + [AtIndex(i)]) {
      ValueBelow(root, path, AtIndex(i));
      StepReads(VArray(items), AtIndex(i), items[i]);
      ProblemsAreLocated(root, item, items[i], path + [AtIndex(i)], p);
    } else {
      ItemsAreLocated(root, item, items, path, i + 1, p);
    }
  }

  lemma StepReads(v: Value, step: PathStep, next: Value)
    requires (v.VArray? && step.AtIndex? && step.index < |v.items| && v.items[step.index] == next)
             || (v.VObject? && step.AtKey? && step.key in v.props && v.props[step.key] == next)
    ensures ValueAt(v, [step]) == Some(next)
  {
    assert [step][1..] == [] && ValueAt(next, []) == Some(next);
  }

  lemma {:induction false} RequiredAreLocated(root: Value, fields: seq<Field>, props: map<string, Value>, path: seq<PathStep>, k: nat, p: Problem)
    requires k <= |fields| && ValueAt(root, path) == Some(VObject(props)) && p in RequiredProblems(fields, props, path, k)
    ensures Located(root, p)
    decreases fields, |fields| - k
  {
    var f := fields[k];
    if p in RequiredProblem(f, props, path) {
      FieldIsLocated(root, f, props, path, p);
    } else {
      RequiredAreLocated(root, fields, props, path, k + 1, p);
    }
    hide Located;
  }

  lemma {:induction false} FieldIsLocated(root: Value, f: Field, props: map<string, Value>, path: seq<PathStep>, p: Problem)
    requires ValueAt(root, path) == Some(VObject(props)) && p in RequiredProblem(f, props, path)
    ensures Located(root, p)
    decreases f, 1
  {
    if Present(props, f.key) {
      ValueBelow(root, path, AtKey(f.key));
      StepReads(VObject(props), AtKey(f.key), props[f.key]);
      ProblemsAreLocated(root, f.spec, props[f.key], path + [AtKey(f.key)], p);
      hide Located;
    } else {
      assert (path + [AtKey(f.key)])[..|path|] == path;
    }
  }

  lemma {:induction false} OptionalAreLocated(fields: seq<Field>, props: map<string, Value>, k: nat, p: Problem)
    requires k <= |fields| && p in OptionalProblems(fields, props, k)
    ensures Located(VObject(props), p)
    decreases |fields| - k
  {
    hide Located;
    var f := fields[k];
    if Present(props, f.key) && p in Problems(f.spec, props[f.key], [AtKey(f.key)]) {
      StepReads(VObject(props), AtKey(f.key), props[f.key]);
      ProblemsAreLocated(VObject(props), f.spec, props[f.key], [AtKey(f.key)], p);
    } else {
      OptionalAreLocated(fields, props, k + 1, p);
    }
  }

  /** So is every problem reported for a shape. */
  lemma ShapeProblemsAreLocated(shape: Shape, props: map<string, Value>, p: Problem)
    requires p in ShapeProblems(shape, props)
    ensures Located(VObject(props), p)
  {
    if p in RequiredProblems(shape.required, props, [], 0) {
      RequiredAreLocated(VObject(props), shape.required, props, [], 0, p);
    } else {
      OptionalAreLocated(shape.optional, props, 0, p);
    }
    hide Located;
  }

  // ---------------------------------------------------------------- the checker

  method CheckValue(spec: Spec, v: Value, path: seq<PathStep>, errors: seq<Problem>) returns (out: seq<Problem>)
    ensures out == errors + Problems(spec, v, path)
    decreases spec, 1
  {
    match spec
    case Leaf(text) => out := errors + LeafProblems(text, v, path);
    case ArrayOf(item) =>
      if !v.VArray? { return errors + [Mismatch(path, "array", TypeOf(v))]; }
      out := CheckItems(item, v.items, path, errors);
    case Fields(fields) =>
      if !v.VObject? { return errors + [Mismatch(path, "object", TypeOf(v))]; }
      out := CheckRequired(fields, v.props, path, errors);
  }

  method CheckItems(item: Spec, items: seq<Value>, path: seq<PathStep>, errors: seq<Problem>)
    returns (out: seq<Problem>)
    ensures out == errors + ItemProblems(item, items, path, 0)
    decreases item, 2
  {
    out := errors;
    for i := 0 to |items|
      invariant out + ItemProblems(item, items, path, i) == errors + ItemProblems(item, items, path, 0)
    {
      out := CheckValue(item, items[i], path + [AtIndex(i)], out);
    }
  }

  method CheckRequired(fields: seq<Field>, props: map<string, Value>, path: seq<PathStep>, errors: seq<Problem>)
    returns (out: seq<Problem>)
    ensures out == errors + RequiredProblems(fields, props, path, 0)
    decreases fields, 0
  {
    out := errors;
    for k := 0 to |fields|
      invariant out + RequiredProblems(fields, props, path, k) == errors + RequiredProblems(fields, props, path, 0)
    {
      var f := fields[k];
      if !Present(props, f.key) {
        out := out + [Missing(path + [AtKey(f.key)])];
      } else {
        out := CheckValue(f.spec, props[f.key], path + [AtKey(f.key)], out);
      }
    }
  }

  method CheckShape(shape: Shape, props: map<string, Value>) returns (out: seq<Problem>)
    ensures out == ShapeProblems(shape, props)
  {
    out := CheckRequired(shape.required, props, [], []);
    out := CheckOptional(shape.optional, props, out);
  }

  method CheckOptional(fields: seq<Field>, props: map<string, Value>, errors: seq<Problem>) returns (out: seq<Problem>)
    ensures out == errors + OptionalProblems(fields, props, 0)
  {
    out := errors;
    for k := 0 to |fields|
      invariant out + OptionalProblems(fields, props, k) == errors + OptionalProblems(fields, props, 0)
    {
      var f := fields[k];
      if Present(props, f.key) {
        out := CheckValue(f.spec, props[f.key], [AtKey(f.key)], out);
      }
    }
  }

  /** Of the first `n` shapes, none is expected on the subject. */
  ghost predicate NoneExpected(shapes: seq<Shape>, n: nat, subject: Option<string>)
    requires n <= |shapes|
  {
    forall i | 0 <= i < n :: !Candidate(shapes[i], subject)
  }

  /** The problems of one expected shape among the first `n`, none of which has fewer. */
  ghost predicate Closest(shapes: seq<Shape>, n: nat, subject: Option<string>, props: map<string, Value>, errors: seq<Problem>)
    requires n <= |shapes|
  {
    && (exists i | 0 <= i < n :: Candidate(shapes[i], subject) && errors == ShapeProblems(shapes[i], props))
    && (forall i | 0 <= i < n && Candidate(shapes[i], subject) :: |errors| <= |ShapeProblems(shapes[i], props)|)
  }

  lemma ClosestIsLocated(shapes: seq<Shape>, subject: Option<string>, props: map<string, Value>, errors: seq<Problem>)
    requires Closest(shapes, |shapes|, subject, props, errors)
    ensures forall p :: p in errors ==> Located(VObject(props), p)
  {
    var i :| 0 <= i < |shapes| && Candidate(shapes[i], subject) && errors == ShapeProblems(shapes[i], props);
    hide Located;
    forall p | p in errors ensures Located(VObject(props), p) {
      ShapeProblemsAreLocated(shapes[i], props, p);
    }
  }

  /** The loop over candidate shapes: stops at the first that fits, else keeps the closest. */
  method CheckShapes(shapes: seq<Shape>, props: map<string, Value>, subject: Option<string>) returns (best: Option<seq<Problem>>)
    ensures best == Some([]) <==> exists i | 0 <= i < |shapes| :: Candidate(shapes[i], subject) && FitsShape(shapes[i], props)
    ensures best.None? ==> NoneExpected(shapes, |shapes|, subject)
    ensures best.Some? && best.value != [] ==> Closest(shapes, |shapes|, subject, props, best.value)
  {
    hide SubjectFits, FitsShape, ShapeProblems;
    best := None;
    for i := 0 to |shapes|
      invariant best != Some([])
      invariant forall j | 0 <= j < i :: !(Candidate(shapes[j], subject) && FitsShape(shapes[j], props))
      invariant best.None? ==> NoneExpected(shapes, i, subject)
      invariant best.Some? ==> Closest(shapes, i, subject, props, best.value)
    {
      var fits := true;
      if subject.Some? { fits := SubjectMatches(shapes[i].subject, subject.value); }
      if fits {
        var found := CheckShape(shapes[i], props);
        ShapeSilent(shapes[i], props);
        if found == [] { return Some([]); }
        if best.None? || |found| < |best.value| { best := Some(found); }
      }
    }
  }

  /**
   validateEvent: no errors exactly when some shape expected on the subject is
   satisfied at every depth; otherwise the errors of a closest such shape.
   */
  method ValidateEvent(schema: Schema, event: Value, subject: Option<string>) returns (errors: seq<Problem>)
    ensures errors == [] <==> Valid(schema, event, subject)
    ensures KnownEvent(schema, event) && errors != [] ==>
              var shapes := schema[event.props["type"].text];
              || (errors == [UnexpectedSubject] && NoneExpected(shapes, |shapes|, subject))
              || Closest(shapes, |shapes|, subject, event.props, errors)
    ensures KnownEvent(schema, event) && errors != [UnexpectedSubject] ==> forall p :: p in errors ==> Located(event, p)
    ensures !KnownEvent(schema, event) ==> errors == [if event.VObject? || event.VArray? then UnknownType else NotAnEvent]
  {
    hide FitsShape, ShapeProblems, Closest, NoneExpected, Located;
    if !event.VObject? && !event.VArray? { return [NotAnEvent]; }
    if !KnownEvent(schema, event) { return [UnknownType]; }
    var best := CheckShapes(schema[event.props["type"].text], event.props, subject);
    errors := if best.Some? then best.value else [UnexpectedSubject];
    if best.Some? && errors != [] { ClosestIsLocated(schema[event.props["type"].text], subject, event.props, errors); }
  }

  // ---------------------------------------------------------------- samples

  function SampleLeaf(text: string, key: string): Value {
    if IsLiteral(text) then VString(text[|LITERAL|..])
    else
      var first := Split(text, '|')[0];
      if first == "string" then VString(if key == "timestamp" then "2026-10-25T12:00:00.000Z" else "sample-" + key)
      else if first == "number" then VNumber(1)
      else if first == "boolean" then VBoolean(true)
      else if first == "array" then VArray([])
      else if first == "object" then VObject(map[])
      else VString("sample-" + key)
  }

  /** sampleValue. */
  function Sample(spec: Spec, key: string): Value
    decreases spec, 0
  {
    match spec
    case Leaf(text) => SampleLeaf(text, key)
    case ArrayOf(item) => VArray([Sample(item, key)])
    case Fields(fields) => VObject(SampleFields(fields, 0))
  }

  /** Object.fromEntries: of two entries with one key the later wins. */
  function SampleFields(fields: seq<Field>, k: nat): map<string, Value>
    requires k <= |fields|
    decreases fields, |fields| - k
  {
    if k == |fields| then map[]
    else map[fields[k].key := Sample(fields[k].spec, fields[k].key)] + SampleFields(fields, k + 1)
  }

  /** A leaf whose first alternative has a sample of a listed type: not, say, a bare 'null'. */
  predicate LeafSampleable(text: string) {
    || IsLiteral(text) || text == "any"
    || Split(text, '|')[0] in ["string", "number", "boolean", "array", "object"]
    || "string" in Split(text, '|')
  }

  ghost predicate Sampleable(spec: Spec)
    decreases spec
  {
    match spec
    case Leaf(text) => LeafSampleable(text)
    case ArrayOf(item) => Sampleable(item)
    case Fields(fields) => forall k | 0 <= k < |fields| :: Sampleable(fields[k].spec)
  }

  /** An object literal has each key once. */
  ghost predicate WellFormed(spec: Spec)
    decreases spec
  {
    match spec
    case Leaf(_) => true
    case ArrayOf(item) => WellFormed(item)
    case Fields(fields) =>
      && (forall i, j | 0 <= i < j < |fields| :: fields[i].key != fields[j].key)
      && (forall k | 0 <= k < |fields| :: WellFormed(fields[k].spec))
  }

  lemma LeafSampleConforms(text: string, key: string)
    ensures LeafAllows(text, SampleLeaf(text, key)) <==> LeafSampleable(text)
  {
  }

  /** A generated sample satisfies its spec exactly when every leaf in it is sampleable. */
  lemma {:induction false} SampleConforms(spec: Spec, key: string)
    requires WellFormed(spec)
    ensures Conforms(spec, Sample(spec, key)) <==> Sampleable(spec)
    decreases spec
  {
    match spec
    case Leaf(text) => LeafSampleConforms(text, key);
    case ArrayOf(item) =>
      SampleConforms(item, key);
      assert Sample(spec, key).items[0] == Sample(item, key);
    case Fields(fields) =>
      forall k | 0 <= k < |fields|
        ensures var f := fields[k];
                var props := SampleFields(fields, 0);
                Present(props, f.key) && (Conforms(f.spec, props[f.key]) <==> Sampleable(f.spec))
      {
        SampleOfField(fields, 0, k);
        SampleConforms(fields[k].spec, fields[k].key);
      }
  }

  lemma {:induction false} SampleOfField(fields: seq<Field>, k: nat, i: nat)
    requires k <= i < |fields| && forall a, b | 0 <= a < b < |fields| :: fields[a].key != fields[b].key
    ensures var f := fields[i];
            Present(SampleFields(fields, k), f.key) && SampleFields(fields, k)[f.key] == Sample(f.spec, f.key)
    decreases i - k
  {
    if k < i {
      SampleOfField(fields, k + 1, i);
    } else {
      NotSampled(fields, k + 1, fields[k].key);
    }
  }

  lemma {:induction false} NotSampled(fields: seq<Field>, k: nat, key: string)
    requires k <= |fields| && forall i | k <= i < |fields| :: fields[i].key != key
    ensures key !in SampleFields(fields, k)
    decreases |fields| - k
  {
    if k < |fields| { NotSampled(fields, k + 1, key); }
  }

  /** Every asterisk of a pattern becomes the word "sample". */
  function FillWildcards(s: string): string {
    if s == "" then ""
    else (if s[0] == '*' then "sample" else [s[0]]) + FillWildcards(s[1..])
  }

  function FillEach(tokens: seq<string>): seq<string> {
    if tokens == [] then [] else [FillWildcards(tokens[0])] + FillEach(tokens[1..])
  }

  /** Filling the wildcards fills them token by token: the filling has no separator in it. */
  lemma {:induction false} FillSplits(s: string)
    ensures Split(FillWildcards(s), '.') == FillEach(Split(s, '.'))
  {
    if s != "" {
      var rest, tail := Split(s[1..], '.'), FillWildcards(s[1..]);
      FillSplits(s[1..]);
      if s[0] == '*' {
        SplitPrepends("sample", tail);
        assert Split(s, '.')[0] == ['*'] + rest[0] && Split(s, '.')[1..] == rest[1..];
        FillCons('*', rest[0]);
      } else if s[0] == '.' {
        assert ([s[0]] + tail)[1..] == tail;
        assert Split(s, '.')[1..] == rest;
      } else {
        SplitPrepends([s[0]], tail);
        assert Split(s, '.')[0] == [s[0]] + rest[0] && Split(s, '.')[1..] == rest[1..];
        FillCons(s[0], rest[0]);
      }
    }
  }

  lemma FillCons(c: char, s: string)
    ensures FillWildcards([c] + s) == (if c == '*' then "sample" else [c]) + FillWildcards(s)
  {
    assert ([c] + s)[1..] == s;
  }

  lemma {:induction false} SplitPrepends(a: string, s: string)
    requires '.' !in a
    ensures Split(a + s, '.') == [a + Split(s, '.')[0]] + Split(s, '.')[1..]
  {
    if a != "" {
      SplitPrepends(a[1..], s);
      assert (a + s)[1..] == a[1..] + s;
      assert [a[0]] + (a[1..] + Split(s, '.')[0]) == a + Split(s, '.')[0];
    } else {
      assert a + s == s && a + Split(s, '.')[0] == Split(s, '.')[0];
    }
  }

  /** A wildcard stands alone in its token. */
  predicate PlainToken(token: string) {
    token == "*" || '*' !in token
  }

  predicate PlainPattern(pattern: string) {
    forall i | 0 <= i < |Split(pattern, '.')| :: PlainToken(Split(pattern, '.')[i])
  }

  lemma {:induction false} FillPlain(token: string)
    requires '*' !in token
    ensures FillWildcards(token) == token
  {
    if token != "" {
      FillPlain(token[1..]);
      assert [token[0]] + token[1..] == token;
    }
  }

  lemma {:induction false} FilledMatches(tokens: seq<string>)
    requires forall i | 0 <= i < |tokens| :: PlainToken(tokens[i])
    ensures Matches(tokens, FillEach(tokens))
  {
    if tokens != [] {
      FilledMatches(tokens[1..]);
      if tokens[0] != "*" { FillPlain(tokens[0]); }
    }
  }

  lemma SampleSubjectMatches(pattern: string)
    requires PlainPattern(pattern)
    ensures SubjectFits(pattern, FillWildcards(pattern))
  {
    FillSplits(pattern);
    FilledMatches(Split(pattern, '.'));
  }

  // ---------------------------------------------------------------- sample events

  const NO_SUBJECT := "sse"

  function SampleSubject(shape: Shape): Option<string> {
    var filled := FillWildcards(shape.subject);
    if shape.subject == NO_SUBJECT || filled == "" then None else Some(filled)
  }

  /** sampleEvent without overrides: the required fields are laid over subject and type. */
  function SampleEvent(kind: string, shape: Shape): Value {
    var subject := SampleSubject(shape);
    VObject((if subject.Some? then map["subject" := VString(subject.value)] else map[])
            + map["type" := VString(kind)] + SampleFields(shape.required, 0))
  }

  /** validateEvent's default subject. */
  function SubjectOf(event: Value): Option<string> {
    if event.VObject? && "subject" in event.props && event.props["subject"].VString?
    then Some(event.props["subject"].text) else None
  }

  /** Keys once, none of them an envelope key, wildcards alone in their tokens. */
  ghost predicate WellFormedShape(shape: Shape) {
    && WellFormed(Fields(shape.required))
    && (forall i | 0 <= i < |shape.required| :: shape.required[i].key !in ["subject", "type"])
    && (forall i | 0 <= i < |shape.optional| :: shape.optional[i].key !in ["subject", "type"])
    && (forall i, j | 0 <= i < |shape.required| && 0 <= j < |shape.optional| :: shape.required[i].key != shape.optional[j].key)
    && PlainPattern(shape.subject)
  }

  /** The envelope leaves the sampled fields as they are and adds nothing optional. */
  lemma EnvelopeKeepsFields(kind: string, shape: Shape)
    requires WellFormedShape(shape)
    ensures var props, fields := SampleEvent(kind, shape).props, SampleFields(shape.required, 0);
            && (forall k | 0 <= k < |shape.required| ::
                  var key := shape.required[k].key;
                  Present(props, key) && Present(fields, key) && props[key] == fields[key])
            && (forall k | 0 <= k < |shape.optional| :: !Present(props, shape.optional[k].key))
  {
    hide FillWildcards, Split, Sample, SampleSubject, PlainPattern, WellFormed;
    var props, fields := SampleEvent(kind, shape).props, SampleFields(shape.required, 0);
    forall k | 0 <= k < |shape.required|
      ensures var key := shape.required[k].key;
              Present(props, key) && Present(fields, key) && props[key] == fields[key]
    {
      KeysOnce(shape.required);
      SampleOfField(shape.required, 0, k);
    }
    forall k | 0 <= k < |shape.optional| ensures !Present(props, shape.optional[k].key) {
      NotSampled(shape.required, 0, shape.optional[k].key);
    }
  }

  lemma KeysOnce(fields: seq<Field>)
    requires WellFormed(Fields(fields))
    ensures forall i, j | 0 <= i < j < |fields| :: fields[i].key != fields[j].key
  {
  }

  lemma EnvelopeNamesEvent(kind: string, shape: Shape)
    requires WellFormedShape(shape)
    ensures var event := SampleEvent(kind, shape);
            && Present(event.props, "type") && event.props["type"] == VString(kind)
            && SubjectOf(event) == SampleSubject(shape)
  {
    NotSampled(shape.required, 0, "type");
    NotSampled(shape.required, 0, "subject");
    hide FillWildcards, Split, SampleFields, SampleSubject, WellFormedShape;
    assert "type" != "subject";
  }

  lemma SameFieldsConform(fields: seq<Field>, a: map<string, Value>, b: map<string, Value>)
    requires forall k | 0 <= k < |fields| ::
               Present(a, fields[k].key) && Present(b, fields[k].key) && a[fields[k].key] == b[fields[k].key]
    ensures Conforms(Fields(fields), VObject(a)) <==> Conforms(Fields(fields), VObject(b))
  {
    hide LeafAllows;
  }

  /** A sample fits its own shape exactly when the shape's required fields are sampleable. */
  lemma SampleFitsShape(kind: string, shape: Shape)
    requires WellFormedShape(shape)
    ensures FitsShape(shape, SampleEvent(kind, shape).props) <==> Sampleable(Fields(shape.required))
  {
    EnvelopeKeepsFields(kind, shape);
    SampleConforms(Fields(shape.required), "");
    SameFieldsConform(shape.required, SampleEvent(kind, shape).props, SampleFields(shape.required, 0));
    assert Sample(Fields(shape.required), "") == VObject(SampleFields(shape.required, 0));
    hide Conforms, Sampleable, SampleEvent, SampleFields, Sample;
  }

  /** Every sample of a sampleable shape validates, on the subject it carries. */
  lemma SamplesValidate(schema: Schema, kind: string, index: nat)
    requires kind in schema && index < |schema[kind]|
    requires WellFormedShape(schema[kind][index]) && Sampleable(Fields(schema[kind][index].required))
    ensures var event := SampleEvent(kind, schema[kind][index]); Valid(schema, event, SubjectOf(event))
  {
    var shape := schema[kind][index];
    var event := SampleEvent(kind, shape);
    SampleFitsShape(kind, shape);
    EnvelopeNamesEvent(kind, shape);
    if SampleSubject(shape).Some? { SampleSubjectMatches(shape.subject); }
    assert Candidate(shape, SubjectOf(event));
    hide FitsShape, Sampleable, SubjectFits, Candidate, SampleFields, SubjectOf;
  }

  /** A bare 'null' field has no sample: the generator answers with a string. */
  lemma NullHasNoSample(key: string)
    ensures !Conforms(Leaf("null"), Sample(Leaf("null"), key))
  {
    SplitPlain("null", '|');
  }

  /** What a leaf is sampled as, by its first alternative: text by its key's name, a timestamp by a date. */
  lemma LeavesAreSampled(text: string, key: string)
    requires !IsLiteral(text)
    ensures var first, v := Split(text, '|')[0], Sample(Leaf(text), key);
            && (first == "string" ==> v == VString(if key == "timestamp" then "2026-10-25T12:00:00.000Z" else "sample-" + key))
            && (first == "number" ==> v == VNumber(1)) && (first == "boolean" ==> v == VBoolean(true))
            && (first == "array" ==> v == VArray([])) && (first == "object" ==> v == VObject(map[]))
  {
    hide Split, IsLiteral;
  }

  lemma {:induction false} FilledHasNoStar(s: string)
    ensures '*' !in FillWildcards(s) && (FillWildcards(s) == "" <==> s == "")
  {
    if s != "" { FilledHasNoStar(s[1..]); }
  }

  /** A sample event names its type, and a subject its shape expects, without wildcards, unless the shape has none. */
  lemma SampleCarriesSubject(kind: string, shape: Shape)
    requires WellFormedShape(shape)
    ensures var event := SampleEvent(kind, shape);
            && "type" in event.props && event.props["type"] == VString(kind)
            && (SubjectOf(event).Some? <==> shape.subject != "sse" && shape.subject != "")
            && (SubjectOf(event).Some? ==> '*' !in SubjectOf(event).value && SubjectFits(shape.subject, SubjectOf(event).value))
  {
    EnvelopeNamesEvent(kind, shape);
    FilledHasNoStar(shape.subject);
    SampleSubjectMatches(shape.subject);
    hide SampleEvent, SubjectOf, FillWildcards, SubjectFits, WellFormed, PlainPattern;
  }
}
