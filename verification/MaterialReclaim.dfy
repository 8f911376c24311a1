/**
 The physical side of one reclamation pass, bound to the material tree: an inventory, a
 proof, verification of every retained name and candidate, then deletion. It holds no
 journal authority; the caller decides when a proof is complete and still current.
 */
module MaterialReclaim {
  import opened MaterialWorld
  import opened MaterialProjection

  datatype Stage = Inventory | AwaitingProof | Verifying | Files | Directories | Complete

  /** `shielded` and `shieldedDirs` are the identities resolved from retained names. */
  datatype Physical = Physical(
    stage: Stage, resume: Stage, generation: nat, entries: map<Path, FileId>,
    candidates: map<Path, Digest>, retained: set<Path>,
    shielded: set<FileId>, shieldedDirs: set<Path>, proven: map<FileId, Digest>,
    pendingRetained: set<Path>, pendingCandidates: map<Path, Digest>, visited: set<Path>)

  /**
   What the operating system and the step bounds decide: which names this step reaches,
   which recipe coordinates it walks, which names its link counts spare, and faults.
   */
  datatype Os = Os(picks: set<Path>, coords: set<Coord>, partial: set<Digest>, spared: set<Path>,
                   done: bool, fault: bool)

  /** One path coordinate of a registered recipe. */
  datatype Coord = Coord(digest: Digest, alloc: nat, index: nat)

  function Begin(t: Tree): Physical {
    Physical(Inventory, Files, t.generation, map[], map[], {}, {}, {}, map[], {}, map[], {})
  }

  predicate Digits(s: string) {
    s != "" && forall c :: c in s ==> '0' <= c <= '9'
  }

  /** A name left behind by an interrupted publication: `.pending-<pid>-<nonce>` in a namespace. */
  predicate PendingName(p: Path) {
    && |p| == |ROOT| + 2 && InRoot(p)
    && ".pending-" <= p[|p| - 1]
    && var name := p[|p| - 1][9..];
       exists i | 0 <= i < |name| :: name[i] == '-' && Digits(name[..i]) && Digits(name[i + 1..])
  }

  /** Suspend deletion for a new proof; object verification is kept. */
  function Recheck(ph: Physical): Physical {
    ph.(resume := if ph.stage in {Files, Directories} then ph.stage else ph.resume,
        stage := if ph.stage == Inventory then Inventory else AwaitingProof)
  }

  function InventoryStep(t: Tree, ph: Physical, os: Os): Result<Physical> {
    var found := map p | p in os.picks && p in t.names && p !in ph.entries && t.names[p].File? :: t.names[p].id;
    if os.fault then Err(Storage)
    else Ok(ph.(entries := ph.entries + found, stage := if os.done then AwaitingProof else Inventory))
  }

  /** Attach a complete proof. Only coordinates not seen before join the verification queues. */
  function Prove(t: Tree, ph: Physical, candidates: map<Path, Digest>, retained: set<Path>): Result<Physical> {
    if ph.stage != AwaitingProof then Err(Conflict)
    else if |candidates| > LIMIT || |retained| > LIMIT then Err(Capacity)
    else
      var kept := map p | p in ph.pendingCandidates && p in candidates && candidates[p] == ph.pendingCandidates[p]
                  :: candidates[p];
      var changed := map p | p in candidates && !(p in ph.candidates && ph.candidates[p] == candidates[p])
                     :: candidates[p];
      Ok(ph.(pendingRetained := ph.pendingRetained + (retained - ph.retained),
             pendingCandidates := kept + changed,
             generation := t.generation, candidates := candidates,
             retained := ph.retained + retained, stage := Verifying))
  }

  /** Retained names are resolved to identities first; a missing one fails the pass. */
  function ResolveRetained(t: Tree, ph: Physical, os: Os): Result<Physical> {
    var popped := set p | p in os.picks && p in ph.pendingRetained;
    var inside := set p | p in popped && InRoot(p);
    if exists p :: p in inside && p !in t.names then Err(Storage)
    else
      Ok(ph.(pendingRetained := ph.pendingRetained - popped,
             shielded := ph.shielded + (set p | p in inside && t.names[p].File? :: t.names[p].id),
             shieldedDirs := ph.shieldedDirs + (set p | p in inside && t.names[p].Dir?)))
  }

  /** Whether a present candidate is still the inventoried object with the expected bytes. */
  predicate Authentic(t: Tree, ph: Physical, p: Path) {
    p in ph.pendingCandidates && p in t.names ==>
      && p in ph.entries && t.names[p] == File(ph.entries[p])
      && ph.entries[p] in t.contents && t.contents[ph.entries[p]] == ph.pendingCandidates[p]
  }

  function HashCandidates(t: Tree, ph: Physical, os: Os): Result<Physical> {
    var popped := set p | p in os.picks && p in ph.pendingCandidates;
    if exists p :: p in popped && !Authentic(t, ph, p) then Err(Denied)
    else
      var hashed := set p | p in popped && p in ph.entries && p in t.names :: ph.entries[p];
      var left := ph.pendingCandidates - popped;
      Ok(ph.(pendingCandidates := left,
             proven := map id | id in ph.proven.Keys + hashed ::
                         if id in t.contents then t.contents[id] else 0,
             stage := if left == map[] && os.done then ph.resume else Verifying))
  }

  function VerifyStep(t: Tree, ph: Physical, os: Os): Result<Physical> {
    if os.fault then Err(Storage)
    else if ph.pendingRetained != {} then ResolveRetained(t, ph, os)
    else HashCandidates(t, ph, os)
  }

  /** The deletion rule: every name of the object is a candidate or an abandoned pending name. */
  predicate Deletable(ph: Physical, p: Path) {
    && p in ph.entries
    && ph.entries[p] !in ph.shielded
    && (forall n :: n in ph.entries && ph.entries[n] == ph.entries[p] ==> n in ph.candidates || PendingName(n))
    && (forall d :: d in ph.shieldedDirs ==> !(d <= p))
    && (ph.entries[p] in ph.proven || PendingName(p))
  }

  function Remove(t: Tree, gone: set<Path>): Tree {
    t.(names := t.names - gone)
  }

  function FilesGone(ph: Physical, os: Os): set<Path> {
    set p | p in os.picks && p in ph.entries && p !in ph.visited && p !in os.spared && Deletable(ph, p)
  }

  predicate Removable(t: Tree, ph: Physical, d: Path) {
    && d in t.names && t.names[d].Dir?
    && (forall n :: n in t.names && d <= n ==> n == d)
    && (forall s :: s in ph.shieldedDirs ==> !(d <= s))
  }

  function DirsGone(t: Tree, ph: Physical, os: Os): set<Path> {
    set d | d in os.picks && d in t.names && Removable(t, ph, d)
  }

  /** What a step in `Files` or `Directories` removes from the tree. */
  function Gone(t: Tree, ph: Physical, os: Os): set<Path> {
    match ph.stage
    case Files => FilesGone(ph, os)
    case Directories => DirsGone(t, ph, os)
    case _ => {}
  }

  /** The pass after a deletion step. */
  function Deleted(ph: Physical, os: Os): Physical {
    if ph.stage == Files then
      if os.done && ph.entries.Keys <= ph.visited then ph.(stage := Directories)
      else ph.(visited := ph.visited + os.picks, entries := ph.entries - FilesGone(ph, os))
    else if ph.stage == Directories && os.done then ph.(stage := Complete)
    else ph
  }

  // -------------------------------------------------------------- invariant

  /** A retained name is resolved: its file identity or its directory is shielded. */
  ghost predicate Resolved(t: Tree, ph: Physical, q: Path) {
    && q in t.names
    && (t.names[q].File? ==> t.names[q].id in ph.shielded)
    && (t.names[q].Dir? ==> q in ph.shieldedDirs)
  }

  ghost predicate EntriesOk(t: Tree, ph: Physical) {
    forall q :: q in ph.entries ==> q in t.names && t.names[q] == File(ph.entries[q])
  }

  ghost predicate RetainedOk(t: Tree, ph: Physical) {
    forall q :: q in ph.retained && InRoot(q) ==> q in ph.pendingRetained || Resolved(t, ph, q)
  }

  ghost predicate CandidatesOk(t: Tree, ph: Physical) {
    forall q :: q in ph.candidates && q in ph.entries ==>
      || (q in ph.pendingCandidates && ph.pendingCandidates[q] == ph.candidates[q])
      || (ph.entries[q] in t.contents && t.contents[ph.entries[q]] == ph.candidates[q])
  }

  ghost predicate PhysicalOk(t: Tree, ph: Physical) {
    && EntriesOk(t, ph) && RetainedOk(t, ph) && CandidatesOk(t, ph)
    && ph.resume in {Files, Directories}
    && (ph.stage in {Files, Directories} ==> ph.pendingRetained == {} && ph.pendingCandidates == map[])
    && (forall q :: q in ph.pendingCandidates ==> q in ph.candidates && ph.candidates[q] == ph.pendingCandidates[q])
  }

  lemma BeginOk(t: Tree)
    ensures PhysicalOk(t, Begin(t))
  {
  }

  lemma RecheckOk(t: Tree, ph: Physical)
    requires PhysicalOk(t, ph)
    ensures PhysicalOk(t, Recheck(ph))
  {
  }

  lemma PublishOk(w: World, a: EnvAction, ph: Physical)
    requires a.Publish? && Enabled(w, a) && TreeOk(w.tree) && PhysicalOk(w.tree, ph)
    ensures PhysicalOk(Apply(w, a).tree, ph)
  {
    var t, u := w.tree, Apply(w, a).tree;
    assert forall q :: q in t.names ==> q in u.names && u.names[q] == t.names[q];
    assert forall i :: i in t.contents ==> i in u.contents && u.contents[i] == t.contents[i];
    assert forall q :: Resolved(t, ph, q) ==> Resolved(u, ph, q);
  }

  lemma InventoryOk(t: Tree, ph: Physical, os: Os)
    requires PhysicalOk(t, ph) && ph.stage == Inventory && ph.candidates == map[]
    ensures InventoryStep(t, ph, os).Ok? ==> PhysicalOk(t, InventoryStep(t, ph, os).value)
  {
  }

  lemma ProveOk(t: Tree, ph: Physical, candidates: map<Path, Digest>, retained: set<Path>)
    requires PhysicalOk(t, ph)
    ensures Prove(t, ph, candidates, retained).Ok? ==> PhysicalOk(t, Prove(t, ph, candidates, retained).value)
  {
    var r := Prove(t, ph, candidates, retained);
    if r.Ok? {
      assert forall q :: Resolved(t, ph, q) ==> Resolved(t, r.value, q);
    }
  }

  lemma VerifyOk(t: Tree, ph: Physical, os: Os)
    requires PhysicalOk(t, ph) && ph.stage == Verifying
    ensures VerifyStep(t, ph, os).Ok? ==> PhysicalOk(t, VerifyStep(t, ph, os).value)
  {
    var r := VerifyStep(t, ph, os);
    if r.Ok? {
      assert forall q :: Resolved(t, ph, q) ==> Resolved(t, r.value, q);
      if ph.pendingRetained == {} {
        forall q | q in ph.candidates && q in ph.entries && q in ph.pendingCandidates && q !in r.value.pendingCandidates
          ensures ph.entries[q] in t.contents && t.contents[ph.entries[q]] == ph.candidates[q]
        {
          assert Authentic(t, ph, q);
        }
      }
    }
  }

  /** Deletion keeps every resolved name, so the pass stays sound after it. */
  lemma DeleteOk(t: Tree, ph: Physical, os: Os)
    requires TreeOk(t) && PhysicalOk(t, ph) && ph.stage in {Files, Directories}
    ensures PhysicalOk(Remove(t, Gone(t, ph, os)), Deleted(ph, os))
    ensures TreeOk(Remove(t, Gone(t, ph, os)))
  {
    var gone := Gone(t, ph, os);
    var u, next := Remove(t, gone), Deleted(ph, os);
    forall q | q in ph.retained && InRoot(q)
      ensures Resolved(u, ph, q)
    {
      assert Resolved(t, ph, q);
      assert q !in gone;
    }
    assert RetainedOk(u, next);
    EntriesAfter(t, ph, os);
    assert CandidatesOk(u, next);
  }

  lemma EntriesAfter(t: Tree, ph: Physical, os: Os)
    requires EntriesOk(t, ph) && ph.stage in {Files, Directories}
    ensures EntriesOk(Remove(t, Gone(t, ph, os)), Deleted(ph, os))
  {
    if ph.stage == Files && os.done && ph.entries.Keys <= ph.visited {
      assert FilesGone(ph, os) == {};
    }
  }

  /** The local safety fact: a deletable file harms no retained name. */
  lemma DeletableSpares(t: Tree, ph: Physical, p: Path, q: Path)
    requires TreeOk(t) && PhysicalOk(t, ph) && ph.stage == Files && Deletable(ph, p)
    requires q in ph.retained
    ensures !Harms(t, p, q)
  {
    assert p in t.names && t.names[p] == File(ph.entries[p]);
    if q in t.names {
      assert InRoot(q) && Resolved(t, ph, q);
    }
  }

  lemma RemovableSpares(t: Tree, ph: Physical, p: Path, q: Path)
    requires TreeOk(t) && PhysicalOk(t, ph) && ph.stage == Directories && Removable(t, ph, p)
    requires q in ph.retained
    ensures !Harms(t, p, q)
  {
    if q in t.names {
      assert InRoot(q) && Resolved(t, ph, q);
    }
  }
}
