/** The pool of database handles of one (tenant, ecId), and the key of the pool (store/ebow/pool.go). */
module Pool {
  import opened Calendar

  type DbId = nat

  /** A handle given out; without a database once it was put back. */
  class DbObject {
    var db: Option<DbId>

    constructor (db: DbId)
      ensures this.db == Some(db)
    {
      this.db := Some(db);
    }
  }

  datatype Got = Handle(handle: DbObject) | Nothing | Sleeps

  predicate NoDup(s: seq<DbId>) {
    forall i, j :: 0 <= i < j < |s| ==> s[i] != s[j]
  }

  /** Every method is what one goroutine does while it holds the mutex. A Get is Get or, after a wait,
      GetAgain; goroutines asleep in freed.Wait, and woken from it but not yet running again, are counted. */
  class DbPoolObject {
    const size: nat
    var inUse: int
    var closed: bool
    var db: Option<DbId>
    var created: nat                // databases opened so far, numbered from 0
    var faults: nat                 // openings that failed so far
    ghost var given: set<DbObject> // handles ever given out
    ghost var out: set<DbObject>   // handles not put back
    ghost var asleep: nat
    ghost var woken: nat
    ghost var closes: seq<DbId>    // databases closed, in order

    /** Handles out are counted, at most size; until shutdown the database is open exactly while one is
        out, and every one refers to it. */
    ghost predicate Handles()
      reads this, given
    {
      && out <= given
      && inUse == |out| <= size
      && (forall h :: h in given ==> (h in out <==> h.db.Some?))
      && (!closed ==> (db.Some? <==> inUse > 0))
      && (!closed ==> forall h :: h in out ==> h.db == db)
      && (closed ==> db.None?)
    }

    /** Every database opened is the open one or was closed, once. */
    ghost predicate Lifetimes()
      reads this
    {
      && NoDup(closes)
      && (forall d :: d in closes ==> d < created)
      && (db.Some? ==> db.value < created && db.value !in closes)
      && (forall d :: 0 <= d < created ==> d in closes || db == Some(d))
    }

    /** While a Get sleeps, the free handles are at most as many as the Gets already woken. */
    ghost predicate NoLostWakeup()
      reads this
    {
      && (!closed && asleep > 0 ==> size - inUse <= woken)
      && (closed ==> asleep == 0)
    }

    ghost predicate Valid()
      reads this, given
    {
      Handles() && Lifetimes() && NoLostWakeup()
    }

    constructor (size: nat)
      ensures Valid() && this.size == size && !closed && given == {} && db == None && asleep == 0 && woken == 0 && created == 0 && faults == 0
    {
      this.size := size;
      inUse, closed, db, created, faults := 0, false, None, 0, 0;
      given, out, asleep, woken, closes := {}, {}, 0, 0, [];
    }

    /** freed.Signal. */
    ghost method Signal()
      modifies this`asleep, this`woken
      ensures if old(asleep) > 0 then asleep == old(asleep) - 1 && woken == old(woken) + 1 else asleep == old(asleep) && woken == old(woken)
    {
      if asleep > 0 {
        asleep, woken := asleep - 1, woken + 1;
      }
    }

    /** Get behind its wait loop: a handle, or nothing after shutdown or when opening fails. */
    method Serve(ghost wasWoken: bool) returns (got: Got)
      requires Handles() && Lifetimes() && (closed || inUse < size)
      requires !closed && asleep > 0 ==> size - inUse <= woken + if wasWoken then 1 else 0
      requires closed ==> asleep == 0
      modifies this`inUse, this`db, this`created, this`faults, this`given, this`out, this`asleep, this`woken
      ensures Valid() && !got.Sleeps?
      ensures got.Handle? ==> fresh(got.handle) && given == old(given) + {got.handle} && out == old(out) + {got.handle} && db == got.handle.db
      ensures got.Handle? ==> inUse == old(inUse) + 1 && (old(db).Some? ==> db == old(db))
      ensures got.Nothing? ==> given == old(given) && out == old(out) && db == old(db) && inUse == old(inUse)
      ensures closed ==> got.Nothing?
      ensures faults == old(faults) + if !closed && got.Nothing? then 1 else 0
      ensures created == old(created) + if got.Handle? && old(db).None? then 1 else 0
      ensures !closed && old(db).Some? ==> got.Handle?
    {
      if closed {
        return Nothing;
      }
      var ok := EnsureOpen();
      if !ok {
        Signal();
        return Nothing;
      }
      ghost var free, awake := asleep, woken;
      var handle := HandOut();
      assert asleep == free && woken == awake && Lifetimes();
      got := Handle(handle);
    }

    /** The open database, opened on demand. */
    method EnsureOpen() returns (ok: bool)
      requires Lifetimes()
      modifies this`db, this`created, this`faults
      ensures Lifetimes() && (ok <==> db.Some?)
      ensures faults == old(faults) + if ok then 0 else 1
      ensures old(db).Some? ==> ok && db == old(db) && created == old(created)
      ensures old(db).None? ==> created == old(created) + if ok then 1 else 0
    {
      if db.None? {
        var fails := OpeningFails();
        if fails {
          return false;
        }
        OpenDb();
      }
      ok := true;
    }

    method OpeningFails() returns (r: bool)
      modifies this`faults
      ensures faults == old(faults) + if r then 1 else 0
    {
      r := *;
      if r {
        faults := faults + 1;
      }
    }

    /** OpenStorage when it succeeds. */
    method OpenDb()
      requires Lifetimes() && db.None?
      modifies this`db, this`created
      ensures Lifetimes() && db == Some(old(created)) && created == old(created) + 1
    {
      db := Some(created);
      created := created + 1;
    }

    /** A handle on the open database. */
    method HandOut() returns (handle: DbObject)
      requires !closed && db.Some? && inUse < size
      requires out <= given && inUse == |out|
      requires forall h :: h in given ==> (h in out <==> h.db.Some?)
      requires forall h :: h in out ==> h.db == db
      modifies this`inUse, this`given, this`out
      ensures fresh(handle) && handle.db == db
      ensures Handles() && given == old(given) + {handle} && out == old(out) + {handle} && inUse == old(inUse) + 1
    {
      inUse := inUse + 1;
      handle := new DbObject(db.value);
      assert handle !in given;
      given, out := given + {handle}, out + {handle};
    }

    /** Get up to its first wait. */
    method Get() returns (got: Got)
      requires Valid()
      modifies this
      ensures Valid() && closed == old(closed)
      ensures got.Sleeps? <==> !closed && old(inUse) >= size
      ensures got.Sleeps? ==> asleep == old(asleep) + 1 && woken == old(woken)
      ensures got.Handle? ==> fresh(got.handle) && given == old(given) + {got.handle} && out == old(out) + {got.handle} && db == got.handle.db
      ensures !got.Handle? ==> given == old(given) && out == old(out) && db == old(db) && inUse == old(inUse) && closes == old(closes)
      ensures got.Handle? && old(db).Some? ==> db == old(db)
      ensures closed ==> got.Nothing?
      ensures faults == old(faults) + if !closed && got.Nothing? then 1 else 0
      ensures created == old(created) + if got.Handle? && old(db).None? then 1 else 0
    {
      if !closed && inUse >= size {
        asleep := asleep + 1;
        return Sleeps;
      }
      got := Serve(false);
    }

    /** Get when it runs again after a wait. */
    method GetAgain() returns (got: Got)
      requires Valid() && woken > 0
      modifies this
      ensures Valid() && closed == old(closed)
      ensures got.Sleeps? <==> !closed && old(inUse) >= size
      ensures got.Sleeps? ==> asleep == old(asleep) + 1 && woken == old(woken) - 1
      ensures got.Handle? ==> fresh(got.handle) && given == old(given) + {got.handle} && out == old(out) + {got.handle} && db == got.handle.db
      ensures !got.Handle? ==> given == old(given) && out == old(out) && db == old(db) && inUse == old(inUse) && closes == old(closes)
      ensures got.Handle? && old(db).Some? ==> db == old(db)
      ensures closed ==> got.Nothing?
      ensures faults == old(faults) + if !closed && got.Nothing? then 1 else 0
      ensures created == old(created) + if got.Handle? && old(db).None? then 1 else 0
    {
      woken := woken - 1;
      if !closed && inUse >= size {
        asleep := asleep + 1;
        return Sleeps;
      }
      got := Serve(true);
    }

    /** close. */
    method CloseDb()
      requires Lifetimes()
      modifies this`db, this`closes
      ensures Lifetimes() && db == None
      ensures closes == old(closes) + if old(db).Some? then [old(db).value] else []
    {
      if db.Some? {
        closes := closes + [db.value];
        db := None;
      }
    }

    /** Put of a handle of this pool; a handle put back already changes nothing. */
    method Put(h: DbObject?)
      requires Valid() && (h == null || h in given)
      modifies this, h
      ensures Valid() && closed == old(closed) && given == old(given) && faults == old(faults) && created == old(created)
      ensures h == null || h !in old(out) ==> unchanged(this) && (h != null ==> unchanged(h))
      ensures h != null && h in old(out) ==> out == old(out) - {h} && h.db == None && inUse == old(inUse) - 1
      ensures h != null && h in old(out) ==> db == if old(inUse) == 1 then None else old(db)
      ensures h != null && h in old(out) && old(asleep) > 0 ==> woken == old(woken) + 1
    {
      if h == null || h.db.None? || inUse == 0 {
        return;
      }
      h.db := None;
      out := out - {h};
      inUse := inUse - 1;
      if inUse == 0 {
        CloseDb();
      }
      Signal();
    }

    /** shutdown: no Get waits or gets a handle any more; handles still out may be put back. */
    method Shutdown()
      requires Valid()
      modifies this
      ensures Valid() && closed && db == None && asleep == 0 && woken == old(woken) + old(asleep)
      ensures inUse == old(inUse) && given == old(given) && out == old(out) && faults == old(faults) && created == old(created)
      ensures forall d :: 0 <= d < created ==> d in closes
    {
      closed := true;
      CloseDb();
      asleep, woken := 0, woken + asleep;
    }
  }

  // ----- the key of the pool -----

  function Lower(c: char): char {
    if 'A' <= c <= 'Z' then c + ('a' - 'A') else c
  }

  function ToLower(s: string): (r: string)
    ensures |r| == |s|
  {
    seq(|s|, i requires 0 <= i < |s| => Lower(s[i]))
  }

  /** poolKey. */
  function PoolKey(tenant: string, ecId: string): string {
    ToLower(tenant) + "/" + ecId
  }

  /** The longer tenant begins with the shorter one and a slash, and the rest moved into the ecId. */
  ghost predicate Shifted(t1: string, e1: string, t2: string, e2: string) {
    exists s: string :: t2 == t1 + "/" + s && e1 == s + "/" + e2
  }

  /** Two stores share a pool exactly if they are the same store (tenants compared in lower case) or
      one tenant's name holds a slash and begins with the other's. */
  lemma KeyCollision(t1: string, e1: string, t2: string, e2: string)
    ensures PoolKey(t1, e1) == PoolKey(t2, e2) <==>
            (ToLower(t1) == ToLower(t2) && e1 == e2) || Shifted(ToLower(t1), e1, ToLower(t2), e2) || Shifted(ToLower(t2), e2, ToLower(t1), e1)
  {
    var l1, l2 := ToLower(t1), ToLower(t2);
    if PoolKey(t1, e1) == PoolKey(t2, e2) {
      if |l1| == |l2| {
        assert (l1 + "/" + e1)[..|l1|] == l1 && (l2 + "/" + e2)[..|l1|] == l2;
        assert (l1 + "/" + e1)[|l1| + 1..] == e1 && (l2 + "/" + e2)[|l1| + 1..] == e2;
      } else if |l1| < |l2| {
        ShiftedBy(l1, e1, l2, e2);
      } else {
        ShiftedBy(l2, e2, l1, e1);
      }
    } else {
      SharedKey(l1, e1, l2, e2);
      SharedKey(l2, e2, l1, e1);
    }
  }

  lemma ShiftedBy(l1: string, e1: string, l2: string, e2: string)
    requires l1 + "/" + e1 == l2 + "/" + e2 && |l1| < |l2|
    ensures Shifted(l1, e1, l2, e2)
  {
    var k := l1 + "/" + e1;
    var s := l2[|l1| + 1..];
    assert k[..|l2|] == l2 && k[|l1|] == '/';
    assert l2 == l1 + "/" + s;
    assert e1 == k[|l1| + 1..];
    assert k[|l1| + 1..] == s + "/" + e2;
  }

  lemma SharedKey(l1: string, e1: string, l2: string, e2: string)
    ensures Shifted(l1, e1, l2, e2) ==> l1 + "/" + e1 == l2 + "/" + e2
  {
    if Shifted(l1, e1, l2, e2) {
      var s :| l2 == l1 + "/" + s && e1 == s + "/" + e2;
      assert l1 + "/" + (s + "/" + e2) == (l1 + "/" + s) + "/" + e2;
    }
  }

  /** Tenants without a slash never share a pool. */
  lemma KeyInjective(t1: string, e1: string, t2: string, e2: string)
    requires '/' !in ToLower(t1) && '/' !in ToLower(t2) && PoolKey(t1, e1) == PoolKey(t2, e2)
    ensures ToLower(t1) == ToLower(t2) && e1 == e2
  {
    KeyCollision(t1, e1, t2, e2);
    NoShift(ToLower(t1), e1, ToLower(t2), e2);
    NoShift(ToLower(t2), e2, ToLower(t1), e1);
  }

  lemma NoShift(l1: string, e1: string, l2: string, e2: string)
    requires '/' !in l2
    ensures !Shifted(l1, e1, l2, e2)
  {
    assert forall s: string :: (l1 + "/" + s)[|l1|] == '/';
  }

  // ----- what OpenStorage lets through -----

  predicate Alphanumeric(c: char) {
    'A' <= c <= 'Z' || 'a' <= c <= 'z' || '0' <= c <= '9'
  }

  /** idPattern, and at most eight characters. */
  predicate IsTenant(s: string) {
    0 < |s| <= 8 && forall i :: 0 <= i < |s| ==> Alphanumeric(s[i])
  }

  /** ecIdPattern: groups of letters and digits with single dashes between them. */
  predicate IsEcId(s: string) {
    && 0 < |s| && (forall i :: 0 <= i < |s| ==> Alphanumeric(s[i]) || s[i] == '-')
    && s[0] != '-' && s[|s| - 1] != '-'
    && (forall i :: 0 <= i < |s| - 1 ==> s[i] != '-' || s[i + 1] != '-')
  }

  lemma LowerTenant(t: string)
    requires IsTenant(t)
    ensures '/' !in ToLower(t)
  {
  }

  /** Stores that can be opened share a database exactly if they are the same store. */
  lemma AcceptedKeys(t1: string, e1: string, t2: string, e2: string)
    requires IsTenant(t1) && IsEcId(e1) && IsTenant(t2) && IsEcId(e2)
    ensures PoolKey(t1, e1) == PoolKey(t2, e2) <==> ToLower(t1) == ToLower(t2) && e1 == e2
  {
    LowerTenant(t1);
    LowerTenant(t2);
    if PoolKey(t1, e1) == PoolKey(t2, e2) {
      KeyInjective(t1, e1, t2, e2);
    }
  }
}
