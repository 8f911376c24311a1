/**
 The collector as the device owner runs it: its pass is replaced field by field, and one call
 is one bounded step. Each method is tied to the step function the safety theorem is about.
 */
module MaterialOwner {
  import opened MaterialWorld
  import opened MaterialProjection
  import opened MaterialReclaim
  import opened MaterialGc

  class DeviceOwner {
    var world: World
    var pass: Option<Pass>
    var completed: Option<Key>

    constructor (w: World)
      ensures world == w && pass == None && completed == None
    {
      world, pass, completed := w, None, None;
    }

    method ProjectMaterialFact(p: Pass, r: RequestId) returns (result: Result<Pass>)
      requires r in world.journal.rows
      ensures result == ProjectRow(world, p, r)
    {
      var row := world.journal.rows[r];
      var pass := p.(associated := p.associated - {r});
      var communicating := r in p.key.associated;
      if row.input.references.None? {
        return Err(Untrusted);
      }
      var references := row.input.references.value;
      if Reclaimable(row) && !communicating {
        if row.input.digest in world.registry.entries {
          pass := pass.(retire := pass.retire + {row.input.digest});
        }
      } else {
        pass := pass.(retire := pass.retire - {row.input.digest});
      }
      var x := Projected(references, row.input.interpreters, Reclaimable(row) && !communicating);
      var facts := ProjectFact(p.facts, x, p.physical.entries.Keys);
      match facts {
        case Err(e) => result := Err(e);
        case Ok(f) => result := Ok(pass.(facts := f));
      }
    }

    /** Retirement is the one step that changes the registry. */
    method RetireOne(p: Pass) returns (q: Pass)
      requires p.retire != {}
      modifies `world
      ensures Retire(old(world), p) == Moved(world, q)
    {
      var digest := Least(p.retire);
      q := p.(retire := p.retire - {digest});
      if digest in world.registry.entries {
        if digest in world.registry.leased {
          q := q.(retry := true);
        } else {
          world := world.(registry := Without(world.registry, digest));
        }
      }
      q := q.(key := q.key.(registry := world.registry.generation));
    }

    method AwaitProof(p: Pass, os: Os) returns (result: Result<Pass>)
      modifies `world
      ensures match Await(old(world), p, os)
              case Err(e) => result == Err(e) && world == old(world)
              case Ok(m) => result == Ok(m.pass) && world == m.world
    {
      if !p.scanned {
        result := Scan(world, p);
        return;
      }
      if p.associated != {} {
        var request := Least(p.associated);
        if request !in world.journal.rows {
          return Err(Storage);
        }
        result := ProjectMaterialFact(p, request);
        return;
      }
      var changes := Changes(world, p);
      if changes.Err? {
        return Err(changes.error);
      }
      var q := changes.value.pass;
      if changes.value.more {
        return Ok(q);
      }
      if q.retire != {} {
        q := RetireOne(q);
        return Ok(q);
      }
      result := Settle(world, q, os);
    }

    method AdvanceReclamation(p: Pass, os: Os) returns (result: Result<Pass>)
      modifies `world
      ensures match Advance(old(world), p, os)
              case Err(e) => result == Err(e) && world == old(world)
              case Ok(m) => result == Ok(m.pass) && world == m.world
    {
      match p.physical.stage {
        case AwaitingProof =>
          result := AwaitProof(p, os);
        case Inventory =>
          var physical := InventoryStep(world.tree, p.physical, os);
          result := if physical.Err? then Err(physical.error) else Ok(p.(physical := physical.value));
        case Verifying =>
          var physical := VerifyStep(world.tree, p.physical, os);
          result := if physical.Err? then Err(physical.error) else Ok(p.(physical := physical.value));
        case Complete =>
          result := Ok(p);
        case _ =>
          if !ProofCurrent(world.journal, p.key.checkpoint) || p.physical.generation != world.tree.generation {
            return Err(Conflict);
          }
          if os.fault {
            return Err(Storage);
          }
          world := world.(tree := Remove(world.tree, Gone(world.tree, p.physical, os)));
          result := Ok(p.(physical := Deleted(p.physical, os)));
      }
    }

    /** One synchronous bounded step, called between owner command opportunities. */
    method ReclaimStep(os: Os) returns (ok: bool)
      modifies this
      ensures Step(old(world), Gc(old(pass), old(completed)), os) == Outcome(world, Gc(pass, completed), ok)
    {
      if pass.Some? {
        var synced := Sync(world, pass.value, os);
        pass := Some(synced.pass);
        if !synced.ok {
          return false;
        }
      } else {
        if completed == Some(KeyOf(world)) {
          return true;
        }
        pass := Some(NewPass(world));
      }
      var current := pass.value;
      var outcome := AdvanceReclamation(current, os);
      if outcome.Err? {
        pass, completed := None, None;
        return false;
      }
      if outcome.value.physical.stage == Complete {
        completed := if outcome.value.retry then None else Some(outcome.value.initial);
        pass := None;
      } else {
        pass := Some(outcome.value);
      }
      return true;
    }
  }
}
