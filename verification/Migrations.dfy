/** `runMigrations`: boots that may fail at any point, over a schema and the ledger of versions. */
module Migrations {

  /** The schema is the sequence of the changes applied to it. */
  datatype Database = Database(schema: seq<int>, ledger: set<int>)

  /** What goes wrong with one migration's transaction: `partial` changes may be made before `up`
      fails, and a failed commit may or may not have taken effect. */
  datatype Fault = Fine | BeginFails | UpFails(partial: seq<int>) | RecordFails | CommitLost | CommitKept

  /** One start of the server: the versions it knows, in order, and the fault each meets. */
  datatype Boot = Boot(known: seq<int>, readable: bool, faults: seq<Fault>)

  predicate Distinct(versions: seq<int>) {
    forall i, j | 0 <= i < j < |versions| :: versions[i] != versions[j]
  }

  predicate Plausible(b: Boot) {
    |b.faults| == |b.known|
  }

  predicate Commits(f: Fault) {
    f == Fine || f == CommitKept
  }

  function Migrated(db: Database, version: int): Database {
    Database(db.schema + [version], db.ledger + {version})
  }

  /** The remaining migrations of a boot, given the versions it read as applied. */
  function Continue(db: Database, applied: set<int>, known: seq<int>, faults: seq<Fault>): (Database, bool)
    requires |known| == |faults|
    decreases |known|
  {
    if known == [] then (db, true)
    else if known[0] in applied then Continue(db, applied, known[1..], faults[1..])
    else
      var next := if Commits(faults[0]) then Migrated(db, known[0]) else db;
      if faults[0] == Fine then Continue(next, applied, known[1..], faults[1..]) else (next, false)
  }

  function AfterBoot(db: Database, b: Boot): (Database, bool)
    requires Plausible(b)
  {
    if b.readable then Continue(db, db.ledger, b.known, b.faults) else (db, false)
  }

  class Server {
    var schema: seq<int>
    var ledger: set<int>

    ghost function Db(): Database
      reads this
    {
      Database(schema, ledger)
    }

    constructor ()
      ensures Db() == Database([], {})
    {
      schema, ledger := [], {};
    }

    method RunMigrations(b: Boot) returns (ok: bool)
      requires Plausible(b)
      modifies this
      ensures (Db(), ok) == AfterBoot(old(Db()), b)
    {
      if !b.readable {
        return false;
      }
      var applied := ledger;
      for i := 0 to |b.known|
        invariant Continue(Db(), applied, b.known[i..], b.faults[i..]) == AfterBoot(old(Db()), b)
      {
        assert b.known[i..][1..] == b.known[i + 1..] && b.faults[i..][1..] == b.faults[i + 1..];
        if b.known[i] in applied {
          continue;
        }
        var fault := b.faults[i];
        if fault == BeginFails {
          return false;
        }
        // The transaction's own copy, dropped by a rollback.
        var txSchema, txLedger := schema, ledger;
        if fault.UpFails? {
          txSchema := txSchema + fault.partial;
          return false;
        }
        txSchema := txSchema + [b.known[i]];
        if fault == RecordFails {
          return false;
        }
        txLedger := txLedger + {b.known[i]};
        if fault == CommitLost {
          return false;
        }
        schema, ledger := txSchema, txLedger;
        if fault == CommitKept {
          return false;
        }
      }
      ok := true;
    }
  }

  // ---------- The schema and its ledger stay in step ----------

  ghost predicate AtStep(db: Database, list: seq<int>, k: nat) {
    k <= |list| && db.schema == list[..k] && db.ledger == set v | v in list[..k]
  }

  lemma StepTaken(db: Database, list: seq<int>, k: nat)
    requires AtStep(db, list, k) && k < |list|
    ensures AtStep(Migrated(db, list[k]), list, k + 1)
  {
    assert list[..k + 1] == list[..k] + [list[k]];
  }

  lemma {:induction false} AllSkipped(db: Database, applied: set<int>, known: seq<int>, faults: seq<Fault>)
    requires |known| == |faults| && forall v | v in known :: v in applied
    ensures Continue(db, applied, known, faults) == (db, true)
  {
    if known != [] {
      assert known[0] in known && forall v | v in known[1..] :: v in known;
      AllSkipped(db, applied, known[1..], faults[1..]);
    }
  }

  /** From where the ledger ends, each migration moves on by one step until a fault stops the boot. */
  lemma {:induction false} NewOnes(db: Database, applied: set<int>, list: seq<int>, k: nat, m: nat, faults: seq<Fault>)
    returns (k': nat)
    requires k <= m <= |list| && |faults| == m - k && AtStep(db, list, k)
    requires forall v | v in list[k..m] :: v !in applied
    ensures k <= k' <= m
    ensures var r := Continue(db, applied, list[k..m], faults);
            AtStep(r.0, list, k') && (r.1 ==> k' == m) && ((forall f | f in faults :: f == Fine) ==> r.1)
    decreases m - k
  {
    k' := k;
    if k < m {
      assert list[k..m][1..] == list[k + 1..m] && list[k] in list[k..m];
      StepTaken(db, list, k);
      if faults[0] == Fine {
        assert forall f | f in faults[1..] :: f in faults;
        k' := NewOnes(Migrated(db, list[k]), applied, list, k + 1, m, faults[1..]);
      } else if Commits(faults[0]) {
        k' := k + 1;
      }
      assert faults[0] in faults;
    }
  }

  lemma {:induction false} SkipApplied(db: Database, list: seq<int>, k: nat, m: nat, j: nat, faults: seq<Fault>)
    requires j <= k <= m <= |list| && |faults| == m - j && AtStep(db, list, k)
    ensures Continue(db, db.ledger, list[j..m], faults) == Continue(db, db.ledger, list[k..m], faults[k - j..])
    decreases k - j
  {
    if j < k {
      assert list[j..m][1..] == list[j + 1..m] && list[j] in list[..k];
      SkipApplied(db, list, k, m, j + 1, faults[1..]);
      assert faults[1..][k - j - 1..] == faults[k - j..];
    }
  }

  lemma NotYetApplied(db: Database, list: seq<int>, k: nat, m: nat)
    requires Distinct(list) && AtStep(db, list, k) && k <= m <= |list|
    ensures forall v | v in list[k..m] :: v !in db.ledger
  {
  }

  /** A boot of a server that knows the first m migrations leaves the schema at some prefix of the
      list, applied once and in order, with exactly that prefix in the ledger; it never goes back;
      and it succeeds only with all that it knows applied. */
  lemma BootKeepsStep(db: Database, b: Boot, list: seq<int>, k: nat, m: nat) returns (k': nat)
    requires Distinct(list) && AtStep(db, list, k)
    requires Plausible(b) && m <= |list| && b.known == list[..m]
    ensures k <= k' <= |list| && AtStep(AfterBoot(db, b).0, list, k')
    ensures AfterBoot(db, b).1 ==> k' >= m
    ensures k' <= (if k < m then m else k)
    ensures b.readable && (forall f | f in b.faults :: f == Fine) ==> AfterBoot(db, b).1
  {
    k' := k;
    if b.readable {
      if k <= m {
        assert list[0..m] == list[..m];
        SkipApplied(db, list, k, m, 0, b.faults);
        NotYetApplied(db, list, k, m);
        assert forall f | f in b.faults[k..] :: f in b.faults;
        k' := NewOnes(db, db.ledger, list, k, m, b.faults[k..]);
      } else {
        forall v | v in list[..m] ensures v in db.ledger {
          var i :| 0 <= i < m && list[i] == v;
          assert list[..k][i] == v;
        }
        AllSkipped(db, db.ledger, b.known, b.faults);
      }
    }
  }

  predicate AllPlausible(boots: seq<Boot>) {
    forall i | 0 <= i < |boots| :: Plausible(boots[i])
  }

  function Boots(db: Database, boots: seq<Boot>): Database
    requires AllPlausible(boots)
  {
    if boots == [] then db else AfterBoot(Boots(db, boots[..|boots| - 1]), boots[|boots| - 1]).0
  }

  predicate KnowsPrefix(b: Boot, list: seq<int>) {
    |b.known| <= |list| && b.known == list[..|b.known|]
  }

  predicate AllKnowPrefix(boots: seq<Boot>, list: seq<int>) {
    AllPlausible(boots) && forall i | 0 <= i < |boots| :: KnowsPrefix(boots[i], list)
  }

  /** Over any sequence of boots, of older and newer servers, failing anywhere: the schema is a prefix
      of the list applied once and in order, and the ledger records exactly that prefix. */
  lemma {:induction false} BootsKeepStep(boots: seq<Boot>, list: seq<int>) returns (k: nat)
    requires Distinct(list) && AllKnowPrefix(boots, list)
    ensures AtStep(Boots(Database([], {}), boots), list, k)
  {
    if boots == [] {
      k := 0;
    } else {
      var init, b := boots[..|boots| - 1], boots[|boots| - 1];
      var k0 := BootsKeepStep(init, list);
      k := BootKeepsStep(Boots(Database([], {}), init), b, list, k0, |b.known|);
    }
  }

  /** After a boot that succeeded, booting again changes nothing, whatever would have failed. */
  lemma BootAgainChangesNothing(boots: seq<Boot>, list: seq<int>, b: Boot, again: Boot)
    requires Distinct(list) && AllKnowPrefix(boots, list)
    requires Plausible(b) && Plausible(again) && KnowsPrefix(b, list) && KnowsPrefix(again, list)
    requires |again.known| <= |b.known| && again.readable
    requires AfterBoot(Boots(Database([], {}), boots), b).1
    ensures var db := AfterBoot(Boots(Database([], {}), boots), b).0; AfterBoot(db, again) == (db, true)
  {
    var before := Boots(Database([], {}), boots);
    var k0 := BootsKeepStep(boots, list);
    var k := BootKeepsStep(before, b, list, k0, |b.known|);
    var db := AfterBoot(before, b).0;
    forall v | v in again.known ensures v in db.ledger {
      var i :| 0 <= i < |again.known| && again.known[i] == v;
      assert list[..k][i] == v;
    }
    AllSkipped(db, db.ledger, again.known, again.faults);
  }

  /** Whatever failed before, one undisturbed boot of the newest server brings the schema up to date. */
  lemma UndisturbedBootCompletes(boots: seq<Boot>, list: seq<int>, b: Boot)
    requires Distinct(list) && AllKnowPrefix(boots, list)
    requires Plausible(b) && b.known == list && b.readable && forall f | f in b.faults :: f == Fine
    ensures AfterBoot(Boots(Database([], {}), boots), b).1
    ensures AfterBoot(Boots(Database([], {}), boots), b).0.schema == list
  {
    var k0 := BootsKeepStep(boots, list);
    assert list == list[..|list|];
    var k := BootKeepsStep(Boots(Database([], {}), boots), b, list, k0, |list|);
  }
}
