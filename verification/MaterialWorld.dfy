/**
 The world a reclamation pass lives in: the execution journal, the set of communicating
 requests, the configured pins, the recipe registry and the protected material tree.
 Everything here may change between two reclamation steps; `EnvAction` lists how.
 */
module MaterialWorld {

  datatype Option<+T> = None | Some(value: T)

  type RequestId = nat
  type Digest = nat
  type Path = seq<string>
  type FileId = nat

  const ROOT: Path := ["materials"]

  predicate InRoot(p: Path) {
    ROOT <= p
  }

  // ---------------------------------------------------------------- journal

  datatype Assessment = Satisfied | NoEffect | OtherEffect

  /** `neverDispatched` is the observation of a recorded termination. */
  datatype Attempt = Attempt(termination: Option<bool>, assessment: Option<Assessment>)

  datatype Snapshot = Snapshot(cancelRequested: bool, attempt: Option<Attempt>)

  datatype Phase = Waiting | Cancelled | Verified | FailedBeforeDispatch | Ended | Running

  /** The phase is derived from the recorded facts; no parallel status is stored. */
  function PhaseOf(s: Snapshot): Phase {
    match s.attempt
    case None => if s.cancelRequested then Cancelled else Waiting
    case Some(a) =>
      if a.assessment.Some? then Verified
      else if a.termination.Some? then (if a.termination.value then FailedBeforeDispatch else Ended)
      else Running
  }

  predicate Settled(s: Snapshot, denied: bool) {
    var assessment := if s.attempt.Some? then s.attempt.value.assessment else None;
    || (s.cancelRequested && (s.attempt.None? || assessment == Some(NoEffect)))
    || PhaseOf(s) in {Cancelled, FailedBeforeDispatch}
    || (PhaseOf(s) == Verified && assessment in {Some(Satisfied), Some(NoEffect)})
    || (s.attempt.None? && denied)
  }

  /** What the frozen input of a request refers to; `references` fails for an untrusted plan. */
  datatype Input = Input(digest: Digest, references: Option<map<Path, Digest>>, interpreters: set<Digest>)

  /** One execution row. `denied` is its latest admission, `pending` an unconfirmed receipt. */
  datatype Row = Row(input: Input, snapshot: Snapshot, denied: bool, pending: bool)

  predicate Reclaimable(row: Row) {
    Settled(row.snapshot, row.denied) && !row.pending
  }

  /** A started attempt without termination or assessment: a write on it is not a safety change. */
  predicate Active(row: Row) {
    && row.snapshot.attempt.Some?
    && row.snapshot.attempt.value.termination.None?
    && row.snapshot.attempt.value.assessment.None?
  }

  datatype Receipt = Receipt(request: RequestId, trust: bool)

  /** `safety` and `changes` are connection-local counters; `external` is the store's data version. */
  datatype Journal = Journal(rows: map<RequestId, Row>, receipts: seq<Receipt>,
                             safety: nat, changes: nat, external: nat)

  datatype Checkpoint = Checkpoint(safety: nat, external: nat, changes: nat, receipt: nat)

  function CheckpointOf(j: Journal): Checkpoint {
    Checkpoint(j.safety, j.external, j.changes, |j.receipts|)
  }

  predicate ProofCurrent(j: Journal, c: Checkpoint) {
    j.safety == c.safety && j.external == c.external
  }

  // --------------------------------------------------------------- registry

  /** `alloc` is the identity of the shared allocation that a walk holds weakly. */
  datatype Recipe = Recipe(alloc: nat, paths: seq<Path>)

  const REGISTERED: nat := 4096

  datatype Registry = Registry(entries: map<Digest, Recipe>, leased: set<Digest>,
                               generation: nat, nextAlloc: nat, capacity: nat)

  ghost predicate RegistryOk(r: Registry) {
    && 0 < r.capacity <= REGISTERED && |r.entries| <= r.capacity
    && (forall d :: d in r.entries ==> r.entries[d].alloc < r.nextAlloc)
    && (forall d, e :: d in r.entries && e in r.entries && r.entries[d].alloc == r.entries[e].alloc ==> d == e)
  }

  // ---------------------------------------------------------- material tree

  /** A name is a directory or a hard link of the file `id`. */
  datatype Node = File(id: FileId) | Dir

  datatype Tree = Tree(names: map<Path, Node>, contents: map<FileId, Digest>, generation: nat)

  ghost predicate TreeOk(t: Tree) {
    && (forall p :: p in t.names ==> InRoot(p) && p != ROOT)
    && (forall p :: p in t.names && t.names[p].File? ==> t.names[p].id in t.contents)
    && (forall p, q :: p in t.names && q in t.names && t.names[p].File? && p <= q ==> p == q)
  }

  // ------------------------------------------------------------------ world

  datatype World = World(journal: Journal, associated: set<RequestId>, pins: set<Path>,
                         registry: Registry, tree: Tree)

  ghost predicate WorldOk(w: World) {
    RegistryOk(w.registry) && TreeOk(w.tree)
  }

  datatype EnvAction =
    | Record(request: RequestId, row: Row)        // a receipt with its new or widened row
    | Trust(request: RequestId)                   // a trust receipt: no row changes
    | Confirm(request: RequestId)                 // delivery confirmation: no receipt
    | External(journal: Journal)                  // another connection wrote anything at all
    | Associate(requests: set<RequestId>)
    | Pin(pins: set<Path>)
    | Register(digest: Digest, paths: seq<Path>)
    | Unregister(digest: Digest)
    | Lease(digests: set<Digest>)
    | Publish(names: map<Path, Node>, contents: map<FileId, Digest>)

  /** What the journal, the registry and the publisher guarantee about their own changes. */
  ghost predicate Enabled(w: World, a: EnvAction) {
    match a
    case Record(r, row) =>
      row.pending && (r in w.journal.rows ==> row.input == w.journal.rows[r].input)
    case Confirm(r) => r in w.journal.rows
    case External(j) => j.external > w.journal.external && j.safety >= w.journal.safety
    case Register(d, _) => d !in w.registry.entries && |w.registry.entries| < w.registry.capacity
    case Unregister(d) => d in w.registry.entries && d !in w.registry.leased
    case Publish(names, contents) =>
      && names.Keys !! w.tree.names.Keys
      && contents.Keys !! w.tree.contents.Keys
      && TreeOk(Apply(w, a).tree)
    case _ => true
  }

  /** The journal counts a write as a safety change unless it lands on an active attempt. */
  function SafetyAfter(j: Journal, r: RequestId): nat {
    if r in j.rows && Active(j.rows[r]) then j.safety else j.safety + 1
  }

  function Apply(w: World, a: EnvAction): World {
    var j := w.journal;
    match a
    case Record(r, row) =>
      w.(journal := Journal(j.rows[r := row], j.receipts + [Receipt(r, false)],
                            SafetyAfter(j, r), j.changes + 1, j.external))
    case Trust(r) =>
      w.(journal := j.(receipts := j.receipts + [Receipt(r, true)],
                       safety := SafetyAfter(j, r), changes := j.changes + 1))
    case Confirm(r) =>
      if r in j.rows then w.(journal := j.(rows := j.rows[r := j.rows[r].(pending := false)], changes := j.changes + 1))
      else w
    case External(other) => w.(journal := other)
    case Associate(requests) => w.(associated := requests)
    case Pin(pins) => w.(pins := pins)
    case Register(d, paths) =>
      w.(registry := w.registry.(entries := w.registry.entries[d := Recipe(w.registry.nextAlloc, paths)],
                                 generation := w.registry.generation + 1,
                                 nextAlloc := w.registry.nextAlloc + 1))
    case Unregister(d) => w.(registry := Without(w.registry, d))
    case Lease(digests) => w.(registry := w.registry.(leased := digests))
    case Publish(names, contents) =>
      w.(tree := Tree(w.tree.names + names, w.tree.contents + contents, w.tree.generation + 1))
  }

  function Without(r: Registry, d: Digest): Registry {
    r.(entries := r.entries - {d}, generation := r.generation + 1)
  }

  /**
   Why a write that leaves the safety counter alone cannot weaken a proof: the row it
   lands on was not reclaimable before, and its new receipt keeps it unreclaimable.
   */
  lemma QuietWriteStaysProtected(w: World, r: RequestId, row: Row)
    requires Enabled(w, Record(r, row))
    requires Apply(w, Record(r, row)).journal.safety == w.journal.safety
    ensures r in w.journal.rows && !Reclaimable(w.journal.rows[r]) && !Reclaimable(row)
  {
    assert Active(w.journal.rows[r]);
  }

  /** A request whose materials must survive: unsettled, undelivered, or still communicating. */
  predicate Protects(w: World, r: RequestId) {
    r in w.journal.rows && (!Reclaimable(w.journal.rows[r]) || r in w.associated)
  }

  /** `q` is a coordinate the world still needs. */
  ghost predicate Needed(w: World, q: Path) {
    || q in w.pins
    || (exists r :: Protects(w, r) && w.journal.rows[r].input.references.Some?
                    && q in w.journal.rows[r].input.references.value)
    || (exists d :: d in w.registry.entries && q in w.registry.entries[d].paths)
  }

  /** `d` is the interpreter digest of a request that must survive. */
  ghost predicate NeededInterpreter(w: World, d: Digest) {
    exists r :: Protects(w, r) && d in w.journal.rows[r].input.interpreters
  }

  /** Removing the name `p` would take away `q`: its name, its bytes, or a file below it. */
  predicate Harms(t: Tree, p: Path, q: Path) {
    || p == q
    || (p in t.names && q in t.names && t.names[p].File? && t.names[p] == t.names[q])
    || (p in t.names && q in t.names && t.names[p].File? && t.names[q].Dir? && q <= p)
    || (q in t.names && p <= q)
  }
}
