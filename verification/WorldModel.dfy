/**
  The world model (axis/world_model.py): keyed states, textual predicates and assignments, and
  forward simulation of action sequences.
 */
module WorldModel {
  import opened Wrappers
  import opened Text

  // ---------------------------------------------------------------- states

  /** What the code observes of a stored value: its `str()` and its truth value. */
  datatype Value = Value(text: string, truthy: bool)

  const TRUE: Value := Value("True", true)

  function OfText(s: string): Value { Value(s, |s| > 0) }

  type State = map<string, Value>

  function Get(s: State, k: string): Option<Value> {
    if k in s then Some(s[k]) else None
  }

  /** `str(values.get(k))`; a missing key reads as `None`. */
  function TextOf(v: Option<Value>): string {
    if v.Some? then v.value.text else "None"
  }

  predicate Truthy(v: Option<Value>) {
    v.Some? && v.value.truthy
  }

  // ---------------------------------------------------------------- predicates and assignments

  /** How a line of text is read: `!key`, `key!=value`, `key=value` or `key`. */
  datatype Line = Negated(key: string) | Differs(key: string, value: string) | Equals(key: string, value: string) | Plain(key: string)

  predicate IsNegated(a: string) { |a| > 0 && a[0] == '!' }

  /** The text before and after the first occurrence of `!=`. */
  function NeqAt(a: string): (i: nat)
    requires Contains(a, "!=")
    ensures i + 2 <= |a| && a[i] == '!' && a[i + 1] == '='
  {
    if "!=" <= a then
      assert a[0] == "!="[0] && a[1] == "!="[1];
      0
    else 1 + NeqAt(a[1..])
  }

  /** `satisfies` looks for `!=` before it looks for `=`. */
  function ReadPredicate(a: string): Line {
    if IsNegated(a) then Negated(a[1..])
    else if Contains(a, "!=") then Differs(Strip(a[..NeqAt(a)]), Strip(a[NeqAt(a) + 2..]))
    else if '=' in a then Equals(Strip(a[..IndexOf(a, '=')]), Strip(a[IndexOf(a, '=') + 1..]))
    else Plain(a)
  }

  /** `apply` knows no `!=`: it splits at the first `=`. */
  function ReadAssignment(a: string): Line {
    if IsNegated(a) then Negated(a[1..])
    else if '=' in a then Equals(Strip(a[..IndexOf(a, '=')]), Strip(a[IndexOf(a, '=') + 1..]))
    else Plain(a)
  }

  /** Whether a stored value (or a missing one) is what the line asks for. */
  predicate Meets(l: Line, v: Option<Value>) {
    match l
    case Negated(_) => !Truthy(v)
    case Differs(_, text) => TextOf(v) != text
    case Equals(_, text) => TextOf(v) == text
    case Plain(_) => Truthy(v)
  }

  predicate Holds(l: Line, s: State) {
    Meets(l, Get(s, l.key))
  }

  predicate Satisfies(s: State, a: string) {
    Holds(ReadPredicate(a), s)
  }

  /** What one assignment leaves at its key: a value, or nothing. */
  function Written(l: Line): Option<Value> {
    match l
    case Negated(_) => None
    case Differs(_, v) => Some(OfText(v))
    case Equals(_, v) => Some(OfText(v))
    case Plain(_) => Some(TRUE)
  }

  function Assign(s: State, l: Line): State {
    match Written(l)
    case None => s - {l.key}
    case Some(v) => s[l.key := v]
  }

  function Apply(s: State, assignments: seq<string>): State {
    if assignments == [] then s
    else Assign(Apply(s, assignments[..|assignments| - 1]), ReadAssignment(assignments[|assignments| - 1]))
  }

  /** The loop of `TypedState.apply`. */
  method ApplyAssignments(s: State, assignments: seq<string>) returns (r: State)
    ensures r == Apply(s, assignments)
  {
    hide ReadAssignment;
    r := s;
    for i := 0 to |assignments|
      invariant r == Apply(s, assignments[..i])
    {
      assert assignments[..i + 1][..i] == assignments[..i];
      r := Assign(r, ReadAssignment(assignments[i]));
    }
    assert assignments[..|assignments|] == assignments;
  }

  lemma AssignGet(s: State, l: Line, k: string)
    ensures Get(Assign(s, l), k) == if l.key == k then Written(l) else Get(s, k)
  {
  }

  /** Applying a concatenation is applying one list after the other. */
  lemma {:induction false} ApplyConcat(s: State, xs: seq<string>, ys: seq<string>)
    ensures Apply(s, xs + ys) == Apply(Apply(s, xs), ys)
  {
    hide Assign, ReadAssignment;
    if ys == [] {
      assert xs + ys == xs;
    } else {
      ApplyConcat(s, xs, ys[..|ys| - 1]);
      assert (xs + ys)[..|xs + ys| - 1] == xs + ys[..|ys| - 1];
    }
  }

  lemma ApplyOne(s: State, a: string)
    ensures Apply(s, [a]) == Assign(s, ReadAssignment(a))
  {
    ApplyConcat(s, [], [a]);
    var none: seq<string> := [];
    assert none + [a] == [a] && [a][..0] == none;
    assert Apply(s, none) == s;
  }

  ghost predicate Writes(assignments: seq<string>, i: nat, k: string)
    requires i < |assignments|
  {
    ReadAssignment(assignments[i]).key == k
  }

  ghost predicate LastWrite(assignments: seq<string>, i: int, k: string) {
    && 0 <= i < |assignments|
    && Writes(assignments, i, k)
    && forall j :: i < j < |assignments| ==> !Writes(assignments, j, k)
  }

  lemma WritesPrefix(assignments: seq<string>, k: string)
    requires assignments != []
    ensures var n := |assignments| - 1;
      && (forall i :: 0 <= i < n ==> (Writes(assignments[..n], i, k) <==> Writes(assignments, i, k)))
      && (forall i :: i < n && LastWrite(assignments, i, k) ==> LastWrite(assignments[..n], i, k))
      && (Writes(assignments, n, k) <==> ReadAssignment(assignments[n]).key == k)
      && (Writes(assignments, n, k) ==> forall i :: LastWrite(assignments, i, k) ==> i == n)
  {
    hide ReadAssignment;
  }

  /** The last assignment to write a key decides what it holds; a key nobody writes keeps its value. */
  lemma {:induction false} LastWriterWins(s: State, assignments: seq<string>, k: string)
    ensures (forall i :: 0 <= i < |assignments| ==> !Writes(assignments, i, k)) ==>
      Get(Apply(s, assignments), k) == Get(s, k)
    ensures forall i :: LastWrite(assignments, i, k) ==>
      Get(Apply(s, assignments), k) == Written(ReadAssignment(assignments[i]))
  {
    hide Assign, ReadAssignment, Get, Written, Writes;
    if assignments != [] {
      var n := |assignments| - 1;
      var front := assignments[..n];
      LastWriterWins(s, front, k);
      AssignGet(Apply(s, front), ReadAssignment(assignments[n]), k);
      WritesPrefix(assignments, k);
    }
  }

  // ---------------------------------------------------------------- are applied assignments satisfied?

  /** An assignment that `satisfies` reads the way `apply` does: anything but `key!=value`. */
  predicate Enforced(a: string) {
    IsNegated(a) || !Contains(a, "!=")
  }

  /** Read as a predicate, an enforced assignment holds wherever its own write is still in place. */
  lemma WrittenHolds(a: string, v: Option<Value>)
    requires Enforced(a) && v == Written(ReadAssignment(a))
    ensures ReadPredicate(a) == ReadAssignment(a) && Meets(ReadPredicate(a), v)
  {
    hide Strip, Contains;
  }

  lemma {:induction false} NeqContainsEq(a: string)
    requires Contains(a, "!=")
    ensures '=' in a
  {
    assert a[NeqAt(a) + 1] == '=';
  }

  /** A `key!=value` assignment reads one key and writes another. */
  lemma ReadsAnotherKey(a: string)
    requires !Enforced(a)
    ensures ReadPredicate(a).key != ReadAssignment(a).key
  {
    hide Strip, IndexOf, Contains, NeqAt;
    NeqContainsEq(a);
    var n, i := NeqAt(a), IndexOf(a, '=');
    if i < n {
      // what is read keeps the first `=`, what is written stops before it
      assert a[..n][i] == '=';
      StripKeeps(a[..n], '=');
      StripKeeps(a[..i], '=');
    } else {
      // the first `=` is that of `!=`, so what is written ends in `!`
      assert a[..i] == a[..n] + ['!'];
      StripMark(a[..n], '!');
    }
  }

  /**
    Exactly when an assignment is satisfied by the state it was just applied to: always, except
    that `key!=value` is satisfied just when it was satisfied before.
   */
  lemma AppliedIff(s: State, a: string)
    ensures Satisfies(Apply(s, [a]), a) <==> Enforced(a) || Satisfies(s, a)
  {
    hide Enforced, ReadAssignment, ReadPredicate, Meets, Apply;
    ApplyOne(s, a);
    var k := ReadPredicate(a).key;
    AssignGet(s, ReadAssignment(a), k);
    if Enforced(a) { WrittenHolds(a, Written(ReadAssignment(a))); } else { ReadsAnotherKey(a); }
  }

  /**
    The same inside a list. If a later assignment writes the key that `a` reads, the last such
    write decides; if none does, `a` is satisfied just when it is enforced or held before its turn.
   */
  lemma AppliedInListIff(s: State, xs: seq<string>, a: string, ys: seq<string>)
    ensures var after, k := Apply(s, xs + [a] + ys), ReadPredicate(a).key;
      && ((forall j :: 0 <= j < |ys| ==> !Writes(ys, j, k)) ==>
            (Satisfies(after, a) <==> Enforced(a) || Satisfies(Apply(s, xs), a)))
      && forall j :: LastWrite(ys, j, k) ==>
           (Satisfies(after, a) <==> Meets(ReadPredicate(a), Written(ReadAssignment(ys[j]))))
  {
    hide Enforced, ReadAssignment, ReadPredicate, Meets, Apply, Get, Written, Writes;
    ApplyConcat(s, xs + [a], ys);
    ApplyConcat(s, xs, [a]);
    AppliedIff(Apply(s, xs), a);
    LastWriterWins(Apply(s, xs + [a]), ys, ReadPredicate(a).key);
  }

  /**
    So an assignment that starts with `!` or contains no `!=`, and whose key no later assignment
    writes, is satisfied by the resulting state.
   */
  lemma AppliedIsSatisfied(s: State, assignments: seq<string>, i: nat)
    requires i < |assignments| && Enforced(assignments[i])
    requires forall j :: i < j < |assignments| ==> !Writes(assignments, j, ReadAssignment(assignments[i]).key)
    ensures Satisfies(Apply(s, assignments), assignments[i])
  {
    hide Apply, Enforced, Meets, ReadAssignment, ReadPredicate;
    var a, ys := assignments[i], assignments[i + 1..];
    assert assignments == assignments[..i] + [a] + ys;
    WrittenHolds(a, Written(ReadAssignment(a)));
    forall j | 0 <= j < |ys| ensures !Writes(ys, j, ReadPredicate(a).key) {
      assert !Writes(assignments, i + 1 + j, ReadAssignment(a).key);
    }
    AppliedInListIff(s, assignments[..i], a, ys);
  }

  lemma ReadDiffers()
    ensures !Enforced("k!=v") && ReadPredicate("k!=v") == Differs("k", "v")
  {
    var a := "k!=v";
    assert a[1..] == "!=v" && "!=" <= a[1..];
    assert Contains(a[1..], "!=");
    assert !("!=" <= a) by { assert a[0] != "!="[0]; }
    assert NeqAt(a) == 1 + NeqAt(a[1..]) == 1;
    assert a[..1] == "k" && a[3..] == "v";
    assert Strip("k") == "k" && Strip("v") == "v";
  }

  /** An input where it fails: `k` keeps the value the assignment says it should differ from. */
  lemma DiffersIsNotEnforced()
    ensures var s := map["k" := OfText("v")]; !Satisfies(Apply(s, ["k!=v"]), "k!=v")
  {
    hide ReadPredicate, Enforced, Apply;
    ReadDiffers();
    AppliedIff(map["k" := OfText("v")], "k!=v");
  }

  // ---------------------------------------------------------------- simulation

  datatype ActionSchema = ActionSchema(
    action: string,
    preconditions: seq<string>,
    onSuccess: seq<string>,
    onFailure: seq<string>)

  datatype Transition = Transition(from: State, action: string, to: State, succeeded: bool)

  type Schemas = map<string, ActionSchema>

  predicate PreconditionsMet(schemas: Schemas, action: string, s: State) {
    action in schemas && forall i :: 0 <= i < |schemas[action].preconditions| ==> Satisfies(s, schemas[action].preconditions[i])
  }

  /** `simulate`; an unknown action raises. */
  function Simulate(schemas: Schemas, s: State, action: string, succeeds: bool): Result<Transition, string> {
    if action !in schemas then Err("unknown action: " + action)
    else if !PreconditionsMet(schemas, action, s) then Ok(Transition(s, action, s, false))
    else
      var post := if succeeds then schemas[action].onSuccess else schemas[action].onFailure;
      Ok(Transition(s, action, Apply(s, post), succeeds))
  }

  type Run = Result<seq<Transition>, string>

  /** A run's transitions after those already made. */
  function After(ts: seq<Transition>, r: Run): Run {
    if r.Ok? then Ok(ts + r.value) else r
  }

  lemma AfterAfter(ts: seq<Transition>, us: seq<Transition>, r: Run)
    ensures After(ts, After(us, r)) == After(ts + us, r)
  {
    if r.Ok? { assert ts + (us + r.value) == (ts + us) + r.value; }
  }

  /** `simulate_sequence`: chain the successful transitions, stop after the first that fails. */
  function SimulateAll(schemas: Schemas, s: State, actions: seq<string>): Run
    decreases |actions|
  {
    if actions == [] then Ok([])
    else match Simulate(schemas, s, actions[0], true)
      case Err(e) => Err(e)
      case Ok(t) => if t.succeeded then After([t], SimulateAll(schemas, t.to, actions[1..])) else Ok([t])
  }

  predicate AllSucceeded(ts: seq<Transition>) {
    forall i :: 0 <= i < |ts| ==> ts[i].succeeded
  }

  /** `plan_is_feasible` */
  function Feasible(schemas: Schemas, s: State, actions: seq<string>): Result<bool, string> {
    match SimulateAll(schemas, s, actions)
    case Err(e) => Err(e)
    case Ok(ts) => Ok(|ts| == |actions| && AllSucceeded(ts))
  }

  /** The state a simulated sequence ends in. */
  function Reached(s: State, ts: seq<Transition>): State {
    if ts == [] then s else ts[|ts| - 1].to
  }

  /** Transitions chain state to state, follow the plan, and only the last may have failed. */
  lemma {:induction false} TransitionsChain(schemas: Schemas, s: State, actions: seq<string>)
    requires SimulateAll(schemas, s, actions).Ok?
    ensures var ts := SimulateAll(schemas, s, actions).value;
      && |ts| <= |actions|
      && (ts != [] ==> ts[0].from == s)
      && (forall i :: 0 <= i < |ts| ==> ts[i].action == actions[i])
      && (forall i :: 0 <= i < |ts| - 1 ==> ts[i].succeeded && ts[i + 1].from == ts[i].to)
      && (|ts| < |actions| ==> ts != [] && !ts[|ts| - 1].succeeded)
    decreases |actions|
  {
    hide PreconditionsMet, Apply;
    if actions != [] {
      var t := Simulate(schemas, s, actions[0], true).value;
      if t.succeeded { TransitionsChain(schemas, t.to, actions[1..]); }
    }
  }

  /**
    What applying a list of assignments comes to: an enforced one is satisfied unless a later one
    writes its key, and a key nobody writes keeps its value.
   */
  ghost predicate Effected(from: State, to: State, assignments: seq<string>) {
    && (forall i: nat :: i < |assignments| && Lasting(assignments, i) ==> Satisfies(to, assignments[i]))
    && forall k {:trigger Get(to, k)} :: NobodyWrites(assignments, k) ==> Get(to, k) == Get(from, k)
  }

  ghost predicate Lasting(assignments: seq<string>, i: nat)
    requires i < |assignments|
  {
    Enforced(assignments[i]) && forall j :: i < j < |assignments| ==> !Writes(assignments, j, ReadAssignment(assignments[i]).key)
  }

  ghost predicate NobodyWrites(assignments: seq<string>, k: string) {
    forall j :: 0 <= j < |assignments| ==> !Writes(assignments, j, k)
  }

  lemma ApplyEffects(s: State, assignments: seq<string>)
    ensures Effected(s, Apply(s, assignments), assignments)
  {
    hide Apply, Enforced, Satisfies, Writes, Get, ReadAssignment;
    forall i: nat | i < |assignments| && Lasting(assignments, i)
      ensures Satisfies(Apply(s, assignments), assignments[i])
    {
      AppliedIsSatisfied(s, assignments, i);
    }
    forall k | NobodyWrites(assignments, k) ensures Get(Apply(s, assignments), k) == Get(s, k) {
      LastWriterWins(s, assignments, k);
    }
  }

  /**
    What one simulated action means: it succeeds exactly when all its preconditions hold where it
    starts and success is asked for; then its success effects hold where it ends. With the
    preconditions met and failure asked for its failure effects hold; otherwise nothing changes.
   */
  lemma ActionMeans(schemas: Schemas, s: State, action: string, succeeds: bool)
    ensures Simulate(schemas, s, action, succeeds).Ok? <==> action in schemas
    ensures action in schemas ==>
      var t, a := Simulate(schemas, s, action, succeeds).value, schemas[action];
      var met := forall i :: 0 <= i < |a.preconditions| ==> Satisfies(s, a.preconditions[i]);
      && t.from == s && t.action == action
      && (t.succeeded <==> met && succeeds)
      && (met ==> Effected(s, t.to, if succeeds then a.onSuccess else a.onFailure))
      && (!met ==> t.to == s)
  {
    hide Apply, Effected, Satisfies;
    if action in schemas {
      ApplyEffects(s, schemas[action].onSuccess);
      ApplyEffects(s, schemas[action].onFailure);
    }
  }

  /**
    What a simulated sequence means: every action of a run is registered; it succeeds exactly when
    its preconditions hold where the one before ended, and then its effects hold where it ends; a
    failed one changes nothing.
   */
  lemma {:induction false} TransitionsMean(schemas: Schemas, s: State, actions: seq<string>, i: nat)
    requires SimulateAll(schemas, s, actions).Ok? && i < |SimulateAll(schemas, s, actions).value|
    ensures var t := SimulateAll(schemas, s, actions).value[i];
      && t.action in schemas
      && var a := schemas[t.action];
         && (t.succeeded <==> forall j :: 0 <= j < |a.preconditions| ==> Satisfies(t.from, a.preconditions[j]))
         && (t.succeeded ==> Effected(t.from, t.to, a.onSuccess))
         && (!t.succeeded ==> t.to == t.from)
    decreases |actions|
  {
    hide Simulate, Effected, Satisfies;
    ActionMeans(schemas, s, actions[0], true);
    if i > 0 {
      var t := Simulate(schemas, s, actions[0], true).value;
      TransitionsMean(schemas, t.to, actions[1..], i - 1);
    }
  }

  /** The whole of a sequence was simulated, and every step succeeded. */
  predicate Completed(r: Run, actions: seq<string>) {
    r.Ok? && |r.value| == |actions| && AllSucceeded(r.value)
  }

  lemma CompletedAfter(t: Transition, r: Run, actions: seq<string>)
    requires actions != [] && t.succeeded
    ensures Completed(After([t], r), actions) <==> Completed(r, actions[1..])
    ensures r.Ok? ==> forall s :: Reached(s, After([t], r).value) == Reached(t.to, r.value)
  {
    if r.Ok? {
      var ts := [t] + r.value;
      assert ts[1..] == r.value;
      if AllSucceeded(ts) {
        forall i | 0 <= i < |r.value| ensures r.value[i].succeeded { assert ts[i + 1] == r.value[i]; }
      }
    }
  }

  /** A plan in two parts: if the first part does not complete, that is all; otherwise the second follows on. */
  lemma {:induction false} SimulateConcat(schemas: Schemas, s: State, xs: seq<string>, ys: seq<string>)
    ensures var r := SimulateAll(schemas, s, xs);
      SimulateAll(schemas, s, xs + ys) ==
      if Completed(r, xs) then After(r.value, SimulateAll(schemas, Reached(s, r.value), ys)) else r
    decreases |xs|
  {
    hide Simulate, Completed, Reached;
    var r := SimulateAll(schemas, s, xs);
    if xs == [] {
      assert xs + ys == ys;
      assert Completed(r, xs) && Reached(s, r.value) == s by { EmptyRun(s); }
      assert After([], SimulateAll(schemas, s, ys)) == SimulateAll(schemas, s, ys) by { AfterNothing(SimulateAll(schemas, s, ys)); }
    } else {
      assert (xs + ys)[0] == xs[0] && (xs + ys)[1..] == xs[1..] + ys;
      var first := Simulate(schemas, s, xs[0], true);
      if first.Ok? && first.value.succeeded {
        var t := first.value;
        SimulateConcat(schemas, t.to, xs[1..], ys);
        var rest := SimulateAll(schemas, t.to, xs[1..]);
        CompletedAfter(t, rest, xs);
        CompletedIsOk(rest, xs[1..]);
        if Completed(rest, xs[1..]) { AfterAfter([t], rest.value, SimulateAll(schemas, Reached(t.to, rest.value), ys)); }
      } else {
        NotCompleted(r, xs, first);
      }
    }
  }

  lemma EmptyRun(s: State)
    ensures Completed(Ok([]), []) && Reached(s, []) == s
  {
  }

  lemma AfterNothing(r: Run)
    ensures After([], r) == r
  {
    if r.Ok? { assert [] + r.value == r.value; }
  }

  lemma CompletedIsOk(r: Run, actions: seq<string>)
    ensures Completed(r, actions) ==> r.Ok?
  {
  }

  lemma NotCompleted(r: Run, actions: seq<string>, first: Result<Transition, string>)
    requires first.Err? ==> r.Err?
    requires first.Ok? ==> !first.value.succeeded && r == Ok([first.value])
    ensures !Completed(r, actions)
  {
    if first.Ok? { assert !r.value[0].succeeded; }
  }

  /**
    Simulation composes, on every plan: a plan in two parts raises where its first part raises, is
    infeasible where the first part is, and otherwise behaves as its second part does from the
    state the first part reaches.
   */
  lemma FeasibleConcat(schemas: Schemas, s: State, xs: seq<string>, ys: seq<string>)
    ensures Feasible(schemas, s, xs + ys) == match Feasible(schemas, s, xs)
      case Err(e) => Err(e)
      case Ok(false) => Ok(false)
      case Ok(true) => Feasible(schemas, Reached(s, SimulateAll(schemas, s, xs).value), ys)
  {
    hide SimulateAll, AllSucceeded, Reached;
    SimulateConcat(schemas, s, xs, ys);
    var first := SimulateAll(schemas, s, xs);
    if Completed(first, xs) {
      var second := SimulateAll(schemas, Reached(s, first.value), ys);
      if second.Ok? { AllSucceededConcat(first.value, second.value); }
    } else if first.Ok? {
      TransitionsChain(schemas, s, xs);
      IncompleteStays(first.value, |xs|, |ys|);
    }
  }

  lemma IncompleteStays(ts: seq<Transition>, n: nat, m: nat)
    requires !(|ts| == n && AllSucceeded(ts))
    requires |ts| <= n && (|ts| < n ==> ts != [] && !ts[|ts| - 1].succeeded)
    ensures !(|ts| == n + m && AllSucceeded(ts))
  {
  }

  lemma AllSucceededConcat(ts: seq<Transition>, us: seq<Transition>)
    requires AllSucceeded(ts)
    ensures AllSucceeded(ts + us) <==> AllSucceeded(us)
  {
    if AllSucceeded(ts + us) {
      forall i | 0 <= i < |us| ensures us[i].succeeded { assert (ts + us)[|ts| + i] == us[i]; }
    }
  }

  /** Only registered actions can be simulated; then nothing raises, and feasibility splits at any point. */
  lemma FeasibleSplitsWhenRegistered(schemas: Schemas, s: State, xs: seq<string>, ys: seq<string>)
    requires forall i :: 0 <= i < |xs| ==> xs[i] in schemas
    requires forall i :: 0 <= i < |ys| ==> ys[i] in schemas
    ensures SimulateAll(schemas, s, xs).Ok?
    ensures Feasible(schemas, s, xs + ys) == Ok(true) <==>
      Feasible(schemas, s, xs) == Ok(true) &&
      Feasible(schemas, Reached(s, SimulateAll(schemas, s, xs).value), ys) == Ok(true)
  {
    hide Simulate, AllSucceeded, Reached;
    RegisteredNeverRaises(schemas, s, xs);
    FeasibleConcat(schemas, s, xs, ys);
  }

  lemma {:induction false} RegisteredNeverRaises(schemas: Schemas, s: State, xs: seq<string>)
    requires forall i :: 0 <= i < |xs| ==> xs[i] in schemas
    ensures SimulateAll(schemas, s, xs).Ok?
    decreases |xs|
  {
    hide PreconditionsMet, Apply;
    if xs != [] {
      var t := Simulate(schemas, s, xs[0], true).value;
      if t.succeeded { RegisteredNeverRaises(schemas, t.to, xs[1..]); }
    }
  }

  // ---------------------------------------------------------------- the code

  class Model {
    var schemas: Schemas

    constructor ()
      ensures schemas == map[]
    {
      schemas := map[];
    }

    /** `register`: a later schema for the same action replaces the earlier one. */
    method Register(schema: ActionSchema)
      modifies this
      ensures schemas == old(schemas)[schema.action := schema]
    {
      schemas := schemas[schema.action := schema];
    }

    method SimulateSequence(start: State, actions: seq<string>) returns (r: Result<seq<Transition>, string>)
      ensures r == SimulateAll(schemas, start, actions)
    {
      hide Simulate;
      var transitions: seq<Transition> := [];
      var current := start;
      assert actions[0..] == actions;
      AfterNothing(SimulateAll(schemas, start, actions));
      for i := 0 to |actions|
        invariant SimulateAll(schemas, start, actions) ==
          After(transitions, SimulateAll(schemas, current, actions[i..]))
      {
        var step := Simulate(schemas, current, actions[i], true);
        if step.Err? { return Err(step.error); }
        assert actions[i..][1..] == actions[i + 1..];
        AfterAfter(transitions, [step.value], SimulateAll(schemas, step.value.to, actions[i + 1..]));
        transitions := transitions + [step.value];
        if !step.value.succeeded { return Ok(transitions); }
        current := step.value.to;
      }
      assert transitions + [] == transitions;
      r := Ok(transitions);
    }

    method PlanIsFeasible(start: State, actions: seq<string>) returns (r: Result<bool, string>)
      ensures r == Feasible(schemas, start, actions)
    {
      var simulated := SimulateSequence(start, actions);
      match simulated
      case Err(e) => r := Err(e);
      case Ok(ts) => r := Ok(|ts| == |actions| && AllSucceeded(ts));
    }
  }
}
