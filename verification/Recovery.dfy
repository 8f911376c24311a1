/**
 Which material coordinates a frozen plan refers to, and which ones recovery reopens. The
 reference projection is what the collector retains; recovery rebuilds the physical recipes of
 the same plan later. Retention has to cover recovery without either calling the other.
 */
module Recovery {
  datatype Option<+T> = None | Some(value: T)

  type Path = seq<string>
  type Digest = string

  datatype Error = Untrusted | Capacity

  datatype Result<+T> = Ok(value: T) | Err(error: Error)

  const LIMIT := 32768

  datatype RunAs = System | User(subject: string)

  datatype Launch = Launch(artifact: Digest, cwd: Path)

  datatype Invocation = Invocation(launch: Launch, runAs: RunAs)

  /** A bundle manifest entry: a relative member name and the digest of its bytes. */
  datatype Entry = Entry(name: Path, digest: Digest)

  datatype Material = Material(path: Path, digest: Digest)

  datatype Step = Step(materials: seq<Material>, invocations: seq<Invocation>,
                       script: Option<Invocation>, bundle: Option<seq<Entry>>)

  /** `profile` is the literal native profile digest of an enrollment plan. */
  datatype Plan = Plan(launch: Launch, runAs: RunAs, program: Option<seq<Step>>, profile: Option<Digest>)

  /** The subject's namespace; the original names it by a digest of the subject. */
  function Namespace(runAs: RunAs): string {
    match runAs
    case System => "system"
    case User(subject) => "user-" + subject
  }

  function Content(root: Path, runAs: RunAs, digest: Digest): Path {
    root + [Namespace(runAs), digest]
  }

  /** The first manifest member with the wanted bytes. */
  function Find(entries: seq<Entry>, digest: Digest): (r: Option<Entry>)
    ensures r.Some? ==> r.value in entries && r.value.digest == digest
  {
    if entries == [] then None
    else if entries[0].digest == digest then Some(entries[0])
    else Find(entries[1..], digest)
  }

  // --------------------------------------------------------------- recovery

  /** A physical recipe: the content it opens. Interpreters and work roots lie outside the root. */
  function Recipe(root: Path, inv: Invocation): Material {
    Material(Content(root, inv.runAs, inv.launch.artifact), inv.launch.artifact)
  }

  /** The original recipe, with its content moved to the bundle member that holds those bytes. */
  function OriginalRecipe(root: Path, step: Step, inv: Invocation): Material {
    var source := Recipe(root, inv);
    if step.bundle.Some? && Find(step.bundle.value, inv.launch.artifact).Some? then
      source.(path := inv.launch.cwd + Find(step.bundle.value, inv.launch.artifact).value.name)
    else source
  }

  function Recipes(root: Path, step: Step, invs: seq<Invocation>): seq<Material> {
    if invs == [] then [] else [OriginalRecipe(root, step, invs[0])] + Recipes(root, step, invs[1..])
  }

  /** Everything recovery of one step reopens: detection, mutations, and the step's own files. */
  function StepMaterials(root: Path, step: Step): seq<Material> {
    (if step.script.Some? then [OriginalRecipe(root, step, step.script.value)] else [])
    + Recipes(root, step, step.invocations) + step.materials
  }

  function AllMaterials(root: Path, steps: seq<Step>): seq<Material> {
    if steps == [] then [] else StepMaterials(root, steps[0]) + AllMaterials(root, steps[1..])
  }

  function Reopened(root: Path, plan: Plan): seq<Material> {
    match plan.program
    case None => [Recipe(root, Invocation(plan.launch, plan.runAs))]
    case Some(steps) => AllMaterials(root, steps)
  }

  // -------------------------------------------------------------- retention

  function Members(cwd: Path, entries: seq<Entry>): seq<Material> {
    if entries == [] then [] else [Material(cwd + entries[0].name, entries[0].digest)] + Members(cwd, entries[1..])
  }

  function InvocationCoordinates(root: Path, step: Step, inv: Invocation): seq<Material> {
    var member := if step.bundle.Some? then Find(step.bundle.value, inv.launch.artifact) else None;
    if member.Some? then
      [Material(inv.launch.cwd + member.value.name, inv.launch.artifact)] + Members(inv.launch.cwd, step.bundle.value)
    else [Material(Content(root, inv.runAs, inv.launch.artifact), inv.launch.artifact)]
  }

  function InvocationsCoordinates(root: Path, step: Step, invs: seq<Invocation>): seq<Material> {
    if invs == [] then []
    else InvocationCoordinates(root, step, invs[0]) + InvocationsCoordinates(root, step, invs[1..])
  }

  /** The reachable phase closure: every invocation, then the script detector's. */
  function Invocations(step: Step): seq<Invocation> {
    step.invocations + (if step.script.Some? then [step.script.value] else [])
  }

  function StepCoordinates(root: Path, step: Step): seq<Material> {
    step.materials + InvocationsCoordinates(root, step, Invocations(step))
  }

  function AllCoordinates(root: Path, steps: seq<Step>): seq<Material> {
    if steps == [] then [] else StepCoordinates(root, steps[0]) + AllCoordinates(root, steps[1..])
  }

  function ProfileCoordinates(root: Path, plan: Plan): seq<Material> {
    match plan.profile
    case None => []
    case Some(d) => [Material(root + [Namespace(plan.runAs), "export-" + d, "enrollment.mobileconfig"], d)]
  }

  function Coordinates(root: Path, plan: Plan): seq<Material> {
    ProfileCoordinates(root, plan)
    + match plan.program
      case None => [Material(Content(root, plan.runAs, plan.launch.artifact), plan.launch.artifact)]
      case Some(steps) => AllCoordinates(root, steps)
  }

  type Refs = map<Path, Digest>

  predicate Under(root: Path, p: Path) {
    root <= p
  }

  /** Publication also owns a digest-named source in the namespace of an aliased path. */
  function Alias(root: Path, m: Material): Path
    requires Under(root, m.path) && m.path != root
  {
    root + [m.path[|root|], m.digest]
  }

  function Bind(refs: Refs, path: Path, digest: Digest): Result<Refs> {
    if path in refs && refs[path] != digest then Err(Untrusted) else Ok(refs[path := digest])
  }

  function Insert(root: Path, refs: Refs, m: Material): Result<Refs> {
    if !Under(root, m.path) then Ok(refs)
    else if m.path == root then Err(Untrusted)
    else
      match Bind(refs, m.path, m.digest)
      case Err(e) => Err(e)
      case Ok(one) =>
        match Bind(one, Alias(root, m), m.digest)
        case Err(e) => Err(e)
        case Ok(two) => if |two| > LIMIT then Err(Capacity) else Ok(two)
  }

  function InsertAll(root: Path, refs: Refs, ms: seq<Material>): Result<Refs>
    decreases ms
  {
    if ms == [] then Ok(refs)
    else match Insert(root, refs, ms[0])
      case Err(e) => Err(e)
      case Ok(next) => InsertAll(root, next, ms[1..])
  }

  function References(root: Path, plan: Plan): Result<Refs> {
    InsertAll(root, map[], Coordinates(root, plan))
  }

  // -------------------------------------------------------------- the loops

  lemma {:induction false} InsertAppend(root: Path, refs: Refs, a: seq<Material>, b: seq<Material>)
    ensures InsertAll(root, refs, a + b) ==
            match InsertAll(root, refs, a) case Err(e) => Err(e) case Ok(mid) => InsertAll(root, mid, b)
    decreases a
  {
    if a == [] {
      assert a + b == b;
    } else {
      assert (a + b)[0] == a[0] && (a + b)[1..] == a[1..] + b;
      if Insert(root, refs, a[0]).Ok? {
        InsertAppend(root, Insert(root, refs, a[0]).value, a[1..], b);
      }
    }
  }

  method InsertEach(root: Path, refs: Refs, ms: seq<Material>) returns (r: Result<Refs>)
    ensures r == InsertAll(root, refs, ms)
  {
    var sofar := refs;
    for i := 0 to |ms|
      invariant InsertAll(root, refs, ms) == InsertAll(root, sofar, ms[i..])
    {
      assert ms[i..][0] == ms[i] && ms[i..][1..] == ms[i + 1..];
      var next := Insert(root, sofar, ms[i]);
      if next.Err? {
        return next;
      }
      sofar := next.value;
    }
    return Ok(sofar);
  }

  /** The projection as it is computed: one map, filled by nested loops, failing at once. */
  method ComputeReferences(root: Path, plan: Plan) returns (r: Result<Refs>)
    ensures r == References(root, plan)
  {
    var rest := match plan.program
      case None => [Material(Content(root, plan.runAs, plan.launch.artifact), plan.launch.artifact)]
      case Some(steps) => AllCoordinates(root, steps);
    InsertAppend(root, map[], ProfileCoordinates(root, plan), rest);
    r := InsertEach(root, map[], ProfileCoordinates(root, plan));
    if r.Err? {
      return;
    }
    if plan.program.None? {
      r := InsertEach(root, r.value, rest);
      return;
    }
    var steps := plan.program.value;
    var sofar := r.value;
    for i := 0 to |steps|
      invariant InsertAll(root, r.value, rest) == InsertAll(root, sofar, AllCoordinates(root, steps[i..]))
    {
      assert steps[i..][0] == steps[i] && steps[i..][1..] == steps[i + 1..];
      InsertAppend(root, sofar, StepCoordinates(root, steps[i]), AllCoordinates(root, steps[i + 1..]));
      var next := InsertStep(root, sofar, steps[i]);
      if next.Err? {
        return next;
      }
      sofar := next.value;
    }
    return Ok(sofar);
  }

  method InsertStep(root: Path, refs: Refs, step: Step) returns (r: Result<Refs>)
    ensures r == InsertAll(root, refs, StepCoordinates(root, step))
  {
    var invs := Invocations(step);
    InsertAppend(root, refs, step.materials, InvocationsCoordinates(root, step, invs));
    r := InsertEach(root, refs, step.materials);
    if r.Err? {
      return;
    }
    var sofar := r.value;
    for i := 0 to |invs|
      invariant InsertAll(root, r.value, InvocationsCoordinates(root, step, invs))
             == InsertAll(root, sofar, InvocationsCoordinates(root, step, invs[i..]))
    {
      assert invs[i..][0] == invs[i] && invs[i..][1..] == invs[i + 1..];
      InsertAppend(root, sofar, InvocationCoordinates(root, step, invs[i]),
                   InvocationsCoordinates(root, step, invs[i + 1..]));
      var next := InsertEach(root, sofar, InvocationCoordinates(root, step, invs[i]));
      if next.Err? {
        return next;
      }
      sofar := next.value;
    }
    return Ok(sofar);
  }

  // ---------------------------------------------------------------- results

  predicate Binds(refs: Refs, path: Path, digest: Digest) {
    path in refs && refs[path] == digest
  }

  /** `m` is kept under its own name and under its digest-named source. */
  predicate Kept(root: Path, refs: Refs, m: Material) {
    Under(root, m.path) ==>
      m.path != root && Binds(refs, m.path, m.digest) && Binds(refs, Alias(root, m), m.digest)
  }

  /** `p` is a name of the coordinate `m`: its path or its digest-named source. */
  predicate Names(root: Path, m: Material, p: Path) {
    Under(root, m.path) && m.path != root && (p == m.path || p == Alias(root, m))
  }

  ghost predicate Explained(root: Path, ms: seq<Material>, p: Path, digest: Digest) {
    exists m :: m in ms && Names(root, m, p) && m.digest == digest
  }

  lemma InsertMeaning(root: Path, refs: Refs, m: Material)
    requires Insert(root, refs, m).Ok?
    ensures var out := Insert(root, refs, m).value;
            && Extends(refs, out) && Kept(root, out, m)
            && (forall p :: p in out ==> Binds(refs, p, out[p]) || (Names(root, m, p) && m.digest == out[p]))
  {
  }

  ghost predicate Extends(refs: Refs, out: Refs) {
    forall p :: p in refs ==> Binds(out, p, refs[p])
  }

  /** Insertion never rebinds, keeps what it is given, and invents nothing. */
  lemma {:induction false} InsertAllMeaning(root: Path, refs: Refs, ms: seq<Material>)
    requires InsertAll(root, refs, ms).Ok?
    ensures var out := InsertAll(root, refs, ms).value;
            && Extends(refs, out)
            && (forall m :: m in ms ==> Kept(root, out, m))
            && (forall p :: p in out ==> Binds(refs, p, out[p]) || Explained(root, ms, p, out[p]))
    decreases ms
  {
    if ms != [] {
      var next := Insert(root, refs, ms[0]).value;
      InsertMeaning(root, refs, ms[0]);
      InsertAllMeaning(root, next, ms[1..]);
      var out := InsertAll(root, next, ms[1..]).value;
      assert Kept(root, out, ms[0]);
      forall m | m in ms
        ensures Kept(root, out, m)
      {
        assert m == ms[0] || m in ms[1..];
      }
      forall p | p in out
        ensures Binds(refs, p, out[p]) || Explained(root, ms, p, out[p])
      {
        if Explained(root, ms[1..], p, out[p]) {
          var m :| m in ms[1..] && Names(root, m, p) && m.digest == out[p];
          assert m in ms;
        } else {
          assert Binds(next, p, out[p]) && ms[0] in ms;
        }
      }
    }
  }

  lemma {:induction false} RecipeCovered(root: Path, step: Step, invs: seq<Invocation>, inv: Invocation)
    requires inv in invs
    ensures OriginalRecipe(root, step, inv) in InvocationsCoordinates(root, step, invs)
  {
    if inv == invs[0] {
      assert OriginalRecipe(root, step, inv) in InvocationCoordinates(root, step, inv);
    } else {
      RecipeCovered(root, step, invs[1..], inv);
    }
  }

  lemma {:induction false} RecipesFrom(root: Path, step: Step, invs: seq<Invocation>, m: Material)
    returns (inv: Invocation)
    requires m in Recipes(root, step, invs)
    ensures inv in invs && m == OriginalRecipe(root, step, inv)
  {
    if m == OriginalRecipe(root, step, invs[0]) {
      inv := invs[0];
    } else {
      inv := RecipesFrom(root, step, invs[1..], m);
    }
  }

  lemma StepCovered(root: Path, step: Step, m: Material)
    requires m in StepMaterials(root, step)
    ensures m in StepCoordinates(root, step)
  {
    if m !in step.materials {
      if m in Recipes(root, step, step.invocations) {
        var inv := RecipesFrom(root, step, step.invocations, m);
        RecipeCovered(root, step, Invocations(step), inv);
      } else {
        RecipeCovered(root, step, Invocations(step), step.script.value);
      }
    }
  }

  lemma {:induction false} AllCovered(root: Path, steps: seq<Step>, m: Material)
    requires m in AllMaterials(root, steps)
    ensures m in AllCoordinates(root, steps)
  {
    if m in StepMaterials(root, steps[0]) {
      StepCovered(root, steps[0], m);
    } else {
      AllCovered(root, steps[1..], m);
    }
  }

  /**
   Retention covers recovery: whenever the projection accepts a plan, everything recovery would
   reopen under the material root is bound to its own digest, with its digest-named source.
   */
  lemma RetentionCoversRecovery(root: Path, plan: Plan, m: Material)
    requires References(root, plan).Ok? && m in Reopened(root, plan)
    ensures Kept(root, References(root, plan).value, m)
  {
    InsertAllMeaning(root, map[], Coordinates(root, plan));
    if plan.program.Some? {
      AllCovered(root, plan.program.value, m);
    }
    assert m in Coordinates(root, plan);
  }

  /** And it retains nothing else: every binding names a coordinate of the plan. */
  lemma RetainsOnlyCoordinates(root: Path, plan: Plan, p: Path)
    requires References(root, plan).Ok? && p in References(root, plan).value
    ensures Explained(root, Coordinates(root, plan), p, References(root, plan).value[p])
  {
    InsertAllMeaning(root, map[], Coordinates(root, plan));
  }

  /** A plan that binds one name to two digests is refused, wherever the two coordinates stand. */
  lemma ConflictRefused(root: Path, plan: Plan, a: Material, b: Material, p: Path)
    requires a in Coordinates(root, plan) && b in Coordinates(root, plan)
    requires Names(root, a, p) && Names(root, b, p) && a.digest != b.digest
    ensures References(root, plan).Err?
  {
    if References(root, plan).Ok? {
      InsertAllMeaning(root, map[], Coordinates(root, plan));
    }
  }
}
