/**
 Device secrets of one namespace and the catalog that lets them all be found again. Every outside
 call may fail, so a crash after any step is a run whose next call fails; keys may also be made
 by other threads, which `retire` does not wait for.
 */
module SecretCatalog {

  datatype Option<+T> = None | Some(value: T)

  type Byte = bv8

  const NAMESPACE: nat := 64
  const SECRET: nat := 32

  /** A catalog file is named after a digest of its reference and kind, so the pair is its name. */
  datatype Entry = Entry(reference: string, key: bool)

  /** A file whose writer stopped in the middle does not match its own name. */
  datatype File = Whole | Partial

  datatype Owner = Unmarked | Marked | Damaged

  /** How an outside call goes; `Torn` is a write that stops in the middle. */
  datatype Fate = Fine | Fails | Torn

  /** What another thread does inside `signing_key`: enter the catalog, then make the key. */
  datatype Other = Enters(reference: string) | Makes(reference: string, id: nat)

  // ----------------------------------------------------------------- accounts

  predicate HexDigit(c: char) {
    '0' <= c <= '9' || 'a' <= c <= 'f' || 'A' <= c <= 'F'
  }

  predicate ValidNamespace(n: string) {
    |n| == NAMESPACE && forall i :: 0 <= i < |n| ==> HexDigit(n[i])
  }

  predicate ReferenceChar(c: char) {
    '0' <= c <= '9' || 'a' <= c <= 'z' || 'A' <= c <= 'Z' || c == '.' || c == '_' || c == '-'
  }

  predicate ValidReference(r: string) {
    1 <= |r| <= 128 && forall i :: 0 <= i < |r| ==> ReferenceChar(r[i])
  }

  function Account(namespace: string, reference: string): string {
    namespace + "-" + reference
  }

  predicate Within(namespace: string, account: string) {
    |account| > |namespace| && account[..|namespace| + 1] == namespace + "-"
  }

  function ReferenceOf(namespace: string, account: string): string
    requires Within(namespace, account)
  {
    account[|namespace| + 1..]
  }

  /** An account belongs to exactly one namespace and one reference. */
  lemma AccountsAreInjective(n: string, r: string, m: string, q: string)
    requires ValidNamespace(n) && ValidNamespace(m)
    ensures Account(n, r) == Account(m, q) <==> n == m && r == q
    ensures Within(m, Account(n, r)) <==> n == m
    ensures ReferenceOf(n, Account(n, r)) == r
  {
    var a, b := Account(n, r), Account(m, q);
    assert a[..NAMESPACE] == n && b[..NAMESPACE] == m;
    assert a[NAMESPACE + 1..] == r && b[NAMESPACE + 1..] == q;
    assert (m + "-")[..NAMESPACE] == m;
    assert a[..NAMESPACE + 1] == n + "-";
    assert a[..NAMESPACE + 1][..NAMESPACE] == n;
  }

  lemma AccountWithin(namespace: string, account: string)
    requires Within(namespace, account)
    ensures Account(namespace, ReferenceOf(namespace, account)) == account
  {
    assert account == account[..|namespace| + 1] + account[|namespace| + 1..];
  }

  // -------------------------------------------------------------------- store

  class SecretStore {
    const namespace: string
    const fates: nat -> Fate
    var owner: Owner
    var catalog: map<Entry, File>
    var litter: bool                    // lock files and whatever else is in the directory
    var secrets: map<string, seq<Byte>> // the system's, for every namespace
    var keys: map<string, nat>
    var calls: nat

    /** Opens a store on whatever is there; only the shape of the namespace is checked. */
    constructor (namespace: string, fates: nat -> Fate, owner: Owner, catalog: map<Entry, File>, litter: bool,
                 secrets: map<string, seq<Byte>>, keys: map<string, nat>)
      requires ValidNamespace(namespace)
      ensures this.namespace == namespace && this.owner == owner && this.catalog == catalog
      ensures this.litter == litter && this.secrets == secrets && this.keys == keys
    {
      this.namespace, this.fates, this.owner, this.catalog, this.litter := namespace, fates, owner, catalog, litter;
      this.secrets, this.keys, calls := secrets, keys, 0;
    }

    predicate Recorded(e: Entry)
      reads `catalog
    {
      e in catalog && catalog[e] == Whole
    }

    /** Every secret and key of the namespace has its entry. */
    predicate Covered()
      reads `catalog, `secrets, `keys
    {
      && (forall a :: a in secrets && Within(namespace, a) ==> Recorded(Entry(ReferenceOf(namespace, a), false)))
      && (forall a :: a in keys && Within(namespace, a) ==> Recorded(Entry(ReferenceOf(namespace, a), true)))
    }

    /** What the owner marker promises. */
    predicate Valid()
      reads `owner, `catalog, `secrets, `keys
    {
      ValidNamespace(namespace) && (owner == Marked ==> Covered())
    }

    predicate Unused()
      reads `secrets, `keys
    {
      (forall a :: a in secrets ==> !Within(namespace, a)) && forall a :: a in keys ==> !Within(namespace, a)
    }

    /** Nothing recorded is ever taken out of the catalog. */
    twostate predicate Keeps()
      reads `catalog
    {
      forall e :: old(Recorded(e)) ==> Recorded(e)
    }

    /** Values that exist stay as they are, and nothing outside the namespace changes at all. */
    twostate predicate OnlyAdds()
      reads `secrets, `keys
    {
      && (forall a :: a in old(secrets) ==> a in secrets && secrets[a] == old(secrets)[a])
      && (forall a :: a in old(keys) ==> a in keys && keys[a] == old(keys)[a])
      && (forall a :: a in secrets && a !in old(secrets) ==> Within(namespace, a))
      && (forall a :: a in keys && a !in old(keys) ==> Within(namespace, a))
    }

    method Next() returns (f: Fate)
      modifies `calls
      ensures f == fates(old(calls))
    {
      f := fates(calls);
      calls := calls + 1;
    }

    /**
     Only an empty directory becomes an owned one. The new marker is true exactly when the system
     holds nothing of the namespace; a directory that was emptied under surviving secrets gets a
     marker that promises too much.
     */
    method InitializeCatalog() returns (ok: bool)
      requires Valid()
      modifies `owner, `calls
      ensures ok ==> owner == Marked
      ensures owner == old(owner) ==> Valid()
      ensures owner != old(owner) ==> old(owner) == Unmarked && catalog == map[] && !litter
      ensures owner != old(owner) ==> (Valid() <==> owner == Damaged || Unused())
    {
      if owner == Damaged {
        return false;
      }
      if owner == Marked {
        return true;
      }
      if catalog != map[] || litter {
        return false;
      }
      var f := Next();
      if f == Fine {
        owner := Marked;
      } else if f == Torn {
        owner := Damaged;
      }
      ok := f == Fine;
    }

    /** Enters a reference before anything is made under it; a torn entry is never taken for a whole one. */
    method Track(reference: string, key: bool) returns (ok: bool)
      requires Valid()
      modifies `catalog, `calls
      ensures Valid() && Keeps()
      ensures ok ==> ValidReference(reference) && Recorded(Entry(reference, key))
      ensures forall e :: e in catalog && e !in old(catalog) ==> e == Entry(reference, key)
    {
      if !ValidReference(reference) {
        return false;
      }
      var e := Entry(reference, key);
      var f := Next();
      if e in catalog {
        return f == Fine && catalog[e] == Whole;
      }
      if f == Fine {
        catalog := catalog[e := Whole];
      } else if f == Torn {
        catalog := catalog[e := Partial];
      }
      ok := f == Fine;
    }

    /** Adds a secret the system does not have; a wrong length is refused. */
    method Add(reference: string, secret: seq<Byte>) returns (ok: bool)
      requires Valid() && Recorded(Entry(reference, false))
      modifies `secrets, `calls
      ensures Valid() && OnlyAdds()
      ensures ok ==> secrets == old(secrets)[Account(namespace, reference) := secret] && |secret| == SECRET
      ensures !ok ==> secrets == old(secrets)
    {
      var account := Account(namespace, reference);
      AccountsAreInjective(namespace, reference, namespace, reference);
      if |secret| != SECRET || account in secrets {
        return false;
      }
      var f := Next();
      ok := f == Fine;
      if ok {
        secrets := secrets[account := secret];
      }
    }

    /** Imports a secret once; an existing one is confirmed or refused, never replaced. */
    method Import(reference: string, secret: seq<Byte>) returns (ok: bool)
      requires Valid()
      modifies `catalog, `secrets, `calls
      ensures Valid() && Keeps() && OnlyAdds()
      ensures ok ==> Account(namespace, reference) in secrets && secrets[Account(namespace, reference)] == secret
      ensures Account(namespace, reference) in secrets && secrets[Account(namespace, reference)] != secret ==> !ok
      ensures forall a :: a in secrets && a !in old(secrets) ==>
                            a == Account(namespace, reference) && Recorded(Entry(reference, false))
    {
      ok := Track(reference, false);
      if !ok {
        return;
      }
      var account := Account(namespace, reference);
      var f := Next();
      if f != Fine {
        return false;
      }
      if account in secrets {
        return secrets[account] == secret;
      }
      ok := Add(reference, secret);
    }

    /** The secret of a reference, made on first use; whoever asks again gets the same. */
    method Credential(reference: string, random: seq<Byte>) returns (value: Option<seq<Byte>>)
      requires Valid()
      modifies `catalog, `secrets, `litter, `calls
      ensures Valid() && Keeps() && OnlyAdds()
      ensures value.Some? ==>
          Account(namespace, reference) in secrets
          && secrets[Account(namespace, reference)] == value.value
      ensures value.Some? && Account(namespace, reference) in old(secrets) ==>
                value.value == old(secrets)[Account(namespace, reference)]
      ensures forall a :: a in secrets && a !in old(secrets) ==>
                            a == Account(namespace, reference) && Recorded(Entry(reference, false))
    {
      var ok := Track(reference, false);
      if !ok {
        return None;
      }
      var account := Account(namespace, reference);
      var f := Next();           // the lock file and its lock
      if f != Fine {
        return None;
      }
      litter := true;
      f := Next();
      if f != Fine {
        return None;
      }
      if account !in secrets {
        ok := Add(reference, random);
        if !ok {
          return None;
        }
        f := Next();
        if f != Fine {
          return None;
        }
      }
      value := Some(secrets[account]);
    }

    /** A key that exists is opened, never made again; no lock is held. */
    method SigningKey(reference: string, create: bool, id: nat) returns (key: Option<nat>)
      requires Valid()
      modifies `catalog, `keys, `calls
      ensures Valid() && Keeps()
      ensures forall a :: a in old(keys) ==> a in keys && keys[a] == old(keys)[a]
      ensures forall a :: a in keys && a !in old(keys) ==>
                            create && a == Account(namespace, reference) && Recorded(Entry(reference, true))
      ensures key.Some? ==> Account(namespace, reference) in keys && keys[Account(namespace, reference)] == key.value
    {
      if !ValidReference(reference) {
        return None;
      }
      if create {
        var ok := Track(reference, true);
        if !ok {
          return None;
        }
      }
      var account := Account(namespace, reference);
      AccountsAreInjective(namespace, reference, namespace, reference);
      var f := Next();
      if f != Fine || (!create && account !in keys) {
        return None;
      }
      if account !in keys {
        keys := keys[account := id];
      }
      key := Some(keys[account]);
    }

    /** What other namespaces own is not touched. */
    twostate predicate LeavesOthers()
      reads `secrets, `keys
    {
      && (forall a :: !Within(namespace, a) ==>
                        (a in secrets <==> a in old(secrets)) && (a in secrets ==> secrets[a] == old(secrets)[a]))
      && (forall a :: !Within(namespace, a) ==>
                        (a in keys <==> a in old(keys)) && (a in keys ==> keys[a] == old(keys)[a]))
    }

    /** Other threads inside `signing_key`; each entered the catalog before it makes its key. */
    method Interfere(events: seq<Other>, ghost late0: set<string>) returns (ghost late: set<string>)
      requires Valid()
      modifies `catalog, `keys, `calls
      ensures Valid() && Keeps() && LeavesOthers()
      ensures late0 <= late <= late0 + Made(events)
      ensures forall a :: a in old(keys) ==> a in keys
      ensures forall a :: a in keys && a !in old(keys) ==> Within(namespace, a) && ReferenceOf(namespace, a) in late
      ensures forall r :: r in late && r !in late0 ==> Account(namespace, r) in keys
    {
      late := late0;
      var i := 0;
      while i < |events|
        invariant i <= |events| && Valid() && Keeps() && LeavesOthers()
        invariant late0 <= late <= late0 + Made(events[..i])
        invariant forall a :: a in old(keys) ==> a in keys
        invariant forall a :: a in keys && a !in old(keys) ==> Within(namespace, a) && ReferenceOf(namespace, a) in late
        invariant forall r :: r in late && r !in late0 ==> Account(namespace, r) in keys
      {
        MadeMore(events, i);
        match events[i] {
          case Enters(reference) =>
            var _ := Track(reference, true);
          case Makes(reference, id) =>
            var account := Account(namespace, reference);
            AccountsAreInjective(namespace, reference, namespace, reference);
            if Recorded(Entry(reference, true)) && account !in keys {
              keys := keys[account := id];
              late := late + {reference};
            }
        }
        i := i + 1;
      }
      assert events[..i] == events;
    }

    /** Whatever the namespace still has is either listed for deletion or was made meanwhile. */
    predicate Listed(remaining: set<Entry>, late: set<string>)
      reads `secrets, `keys
    {
      && (forall a :: a in secrets && Within(namespace, a) ==> Entry(ReferenceOf(namespace, a), false) in remaining)
      && (forall a :: a in keys && Within(namespace, a) ==>
                        Entry(ReferenceOf(namespace, a), true) in remaining || ReferenceOf(namespace, a) in late)
      && (forall r :: r in late ==> Account(namespace, r) in keys)
    }

    /** Deletes what one entry names; deleting what is not there succeeds. */
    method DeleteOne(e: Entry, ghost remaining: set<Entry>, ghost late: set<string>) returns (ok: bool)
      requires Valid()
      modifies `secrets, `keys, `calls
      ensures Valid() && LeavesOthers()
      ensures forall a :: a in keys ==> a in old(keys)
      ensures ok && old(Listed(remaining, late)) ==>
          Listed(remaining - {e}, if e.key then late - {e.reference} else late)
    {
      var f := Next();
      if f != Fine || !ValidReference(e.reference) {
        return false;
      }
      var account := Account(namespace, e.reference);
      AccountsAreInjective(namespace, e.reference, namespace, e.reference);
      if e.key {
        keys := keys - {account};
      } else {
        secrets := secrets - {account};
      }
      ok := true;
      forall a | Within(namespace, a) && ReferenceOf(namespace, a) == e.reference
        ensures a == account
      {
        AccountWithin(namespace, a);
      }
      forall r | r != e.reference
        ensures Account(namespace, r) != account
      {
        AccountsAreInjective(namespace, r, namespace, e.reference);
      }
    }

    /** Enters every reference the caller knows of, and the fixed one. */
    method TrackAll(references: seq<(string, bool)>) returns (ok: bool)
      requires Valid()
      modifies `catalog, `calls
      ensures Valid() && Keeps()
      ensures ok ==> forall k :: 0 <= k < |references| ==> Recorded(Entry(references[k].0, references[k].1))
    {
      var i := 0;
      while i < |references|
        invariant i <= |references| && Valid() && Keeps()
        invariant forall k :: 0 <= k < i ==> Recorded(Entry(references[k].0, references[k].1))
      {
        ok := Track(references[i].0, references[i].1);
        if !ok {
          return;
        }
        i := i + 1;
      }
      ok := Track("journal-location", false);
    }

    /** One listed entry: a torn one stops the retirement, any other is deleted. */
    method Visit(e: Entry, ghost remaining: set<Entry>, ghost late0: set<string>, ghost covered: bool)
      returns (ok: bool, ghost late: set<string>)
      requires Valid() && (covered ==> Listed(remaining, late0))
      modifies `secrets, `keys, `calls
      ensures Valid() && LeavesOthers() && late <= late0
      ensures ok && covered ==> Listed(remaining - {e}, late)
    {
      late := late0;
      if e in catalog && catalog[e] == Partial {
        return false, late;
      }
      ok := DeleteOne(e, remaining, late0);
      late := if e.key then late0 - {e.reference} else late0;
    }

    /** What other threads do between two visits; the listing may or may not show their entries. */
    method Meanwhile(events: seq<Other>, remaining: set<Entry>, seen: Entry -> bool, ghost late0: set<string>,
                     ghost covered: bool)
      returns (more: set<Entry>, ghost late: set<string>)
      requires Valid() && (covered ==> Listed(remaining, late0))
      modifies `catalog, `keys, `calls
      ensures Valid() && Keeps() && LeavesOthers() && late <= late0 + Made(events)
      ensures covered ==> Listed(more, late)
    {
      var entered := catalog.Keys;
      late := Interfere(events, late0);
      more := remaining + set e | e in catalog.Keys - entered && seen(e);
    }

    /** Visits every entry that was there when the listing began, and perhaps some entered since. */
    method Sweep(others: seq<seq<Other>>, seen: Entry -> bool) returns (ok: bool, ghost late: set<string>, used: nat)
      requires Valid()
      modifies `catalog, `secrets, `keys, `calls
      ensures Valid() && Keeps() && LeavesOthers() && used <= |others|
      ensures late <= MadeIn(others, used)
      ensures ok && old(Covered()) ==> Listed({}, late)
    {
      ghost var covered := Covered();
      var remaining := catalog.Keys;
      late, used := {}, 0;
      while remaining != {}
        invariant used <= |others| && Valid() && Keeps() && LeavesOthers()
        invariant late <= MadeIn(others, used)
        invariant covered ==> Listed(remaining, late)
        decreases |others| - used, |remaining|
      {
        if used < |others| {
          remaining, late := Meanwhile(others[used], remaining, seen, late, covered);
          MadeInMore(others, used);
          used := used + 1;
        }
        if remaining != {} {
          var e :| e in remaining;
          ok, late := Visit(e, remaining, late, covered);
          if !ok {
            return;
          }
          remaining := remaining - {e};
        }
      }
      ok := true;
    }

    /** What other threads still do before the caller hears of it. */
    method Trail(others: seq<seq<Other>>, used: nat, ghost late0: set<string>) returns (ghost late: set<string>)
      requires Valid() && used <= |others| && late0 <= MadeIn(others, used)
      modifies `catalog, `keys, `calls
      ensures Valid() && Keeps() && LeavesOthers()
      ensures late <= MadeIn(others, |others|)
      ensures old(Listed({}, late0)) ==> Listed({}, late)
    {
      late := late0;
      ghost var listed := Listed({}, late0);
      var i := used;
      while i < |others|
        invariant used <= i <= |others| && Valid() && Keeps() && LeavesOthers()
        invariant late <= MadeIn(others, i)
        invariant listed ==> Listed({}, late)
      {
        late := Interfere(others[i], late);
        MadeInMore(others, i);
        i := i + 1;
      }
    }

    lemma LateIsLeft(late: set<string>)
      requires Listed({}, late)
      ensures Unused() <==> late == {}
    {
      if late != {} {
        var r :| r in late;
        AccountIsWithin(namespace, r);
      }
    }

    /**
     Deletes everything the catalog names. `true` is only said under the owner marker, and then
     the namespace is empty except for keys that other threads made after their entry was passed:
     none, when no key is made during the call.
     */
    method Retire(references: seq<(string, bool)>, others: seq<seq<Other>>, seen: Entry -> bool)
      returns (r: Option<bool>, ghost late: set<string>)
      requires Valid()
      modifies `catalog, `secrets, `keys, `calls
      ensures Valid() && Keeps() && LeavesOthers()
      ensures r.Some? ==> owner != Damaged && (r.value <==> owner == Marked)
      ensures r.Some? ==> forall k :: 0 <= k < |references| ==> Recorded(Entry(references[k].0, references[k].1))
      ensures r == Some(true) ==> (Unused() <==> late == {})
      ensures r == Some(true) ==> forall a :: a in secrets ==> !Within(namespace, a)
      ensures late <= MadeIn(others, |others|)
    {
      late := {};
      if owner == Damaged {
        return None, {};
      }
      var complete := owner == Marked;
      var ok := TrackAll(references);
      if !ok {
        return None, {};
      }
      var used;
      ok, late, used := Sweep(others, seen);
      late := Trail(others, used, late);
      if !ok {
        return None, late;
      }
      if complete {
        LateIsLeft(late);
      }
      r := Some(complete);
    }
  }

  /** The references of the keys that are made. */
  function Made(events: seq<Other>): set<string> {
    set i | 0 <= i < |events| && events[i].Makes? :: events[i].reference
  }

  lemma AccountIsWithin(namespace: string, r: string)
    ensures Within(namespace, Account(namespace, r))
  {
    assert Account(namespace, r)[..|namespace| + 1] == namespace + "-";
  }

  function MadeIn(batches: seq<seq<Other>>, n: nat): set<string>
    requires n <= |batches|
  {
    if n == 0 then {} else MadeIn(batches, n - 1) + Made(batches[n - 1])
  }

  lemma MadeInMore(batches: seq<seq<Other>>, n: nat)
    requires n < |batches|
    ensures MadeIn(batches, n + 1) == MadeIn(batches, n) + Made(batches[n])
  {
  }

  lemma MadeMore(events: seq<Other>, i: nat)
    requires i < |events|
    ensures Made(events[..i + 1]) == Made(events[..i]) + if events[i].Makes? then {events[i].reference} else {}
  {
    assert events[..i + 1] == events[..i] + [events[i]];
    forall r | r in Made(events[..i])
      ensures r in Made(events[..i + 1])
    {
      var k :| 0 <= k < i && events[..i][k].Makes? && events[..i][k].reference == r;
      assert events[..i + 1][k].Makes? && events[..i + 1][k].reference == r;
    }
    if events[i].Makes? {
      assert events[..i + 1][i].Makes?;
    }
  }
}
