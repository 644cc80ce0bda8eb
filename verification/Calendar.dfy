/** Local time as the importer sees it: instants are milliseconds since the epoch, and the zone
    is a table of local midnights. Rows are named by the local day and the wall-clock slot. */
module Calendar {

  datatype Option<+T> = None | Some(value: T)

  const QUARTER := 15 * 60 * 1000
  const HOUR := 60 * 60 * 1000

  /** A stored row id: the local day and the wall-clock time on it. In autumn two instants
      share one row id. */
  datatype RowId = RowId(day: int, slot: int)

  /** midnight(d) is the first instant of local day d, day(t) the day an instant lies on, slot(t)
      its wall-clock time. stamp is what a period bound becomes when it is written as a local
      date string and read back. now is the clock during one store. */
  datatype Zone = Zone(midnight: int -> int, day: int -> int, slot: int -> int, stamp: int -> int, now: int)
  {
    /** Every instant lies on its day, a day has 23 to 25 hours, and a written bound keeps its day. */
    ghost predicate Valid() {
      && (forall t :: midnight(day(t)) <= t < midnight(day(t) + 1))
      && (forall d, e :: e == d + 1 ==> 23 * HOUR <= midnight(e) - midnight(d) <= 25 * HOUR)
      && (forall t {:trigger stamp(t)} :: day(stamp(t)) == day(t))
    }

    function Row(t: int): (id: RowId)
      ensures id.day == day(t) && id.slot == slot(t)
    {
      RowId(day(t), slot(t))
    }

    /** dayStart of the importer: the local midnight before or at t. */
    function DayStart(t: int): int {
      midnight(day(t))
    }

    /** nextDayStart of the importer: the following local midnight. */
    function NextDayStart(t: int): int {
      midnight(day(t) + 1)
    }
  }

  lemma {:induction false} MidnightsAscend(z: Zone, c: int, d: int)
    requires z.Valid() && c <= d
    ensures z.midnight(c) <= z.midnight(d)
    decreases d - c
  {
    if c < d {
      MidnightsAscend(z, c, d - 1);
      assert z.midnight((d - 1) + 1) == z.midnight(d);
    }
  }

  lemma MidnightOrder(z: Zone, c: int, d: int)
    requires z.Valid()
    ensures z.midnight(c) <= z.midnight(d) <==> c <= d
  {
    if c <= d {
      MidnightsAscend(z, c, d);
    } else {
      MidnightsAscend(z, d + 1, c);
      assert z.midnight(d) < z.midnight(d + 1);
    }
  }

  /** The day of an instant is the only day whose span holds it. */
  lemma {:induction false} DayIsUnique(z: Zone, t: int, d: int)
    requires z.Valid()
    ensures z.midnight(d) <= t < z.midnight(d + 1) <==> z.day(t) == d
  {
    assert z.midnight(z.day(t)) <= t < z.midnight(z.day(t) + 1);
    if z.day(t) < d {
      MidnightsAscend(z, z.day(t) + 1, d);
    } else if d < z.day(t) {
      MidnightsAscend(z, d + 1, z.day(t));
    }
  }

  lemma {:induction false} DayMonotone(z: Zone, s: int, t: int)
    requires z.Valid() && s <= t
    ensures z.day(s) <= z.day(t)
  {
    if z.day(t) < z.day(s) {
      MidnightsAscend(z, z.day(t) + 1, z.day(s));
    }
  }

  /** A local midnight is the start of its own day. */
  lemma MidnightDay(z: Zone, d: int)
    requires z.Valid()
    ensures z.day(z.midnight(d)) == d
  {
    assert z.midnight(d) < z.midnight(d + 1);
    DayIsUnique(z, z.midnight(d), d);
  }
}
