/**
 * The per-entity counter table: one row per entity name holding a count.
 * The store is a map from entity name to count; a missing row reads as 0.
 */
module Counter {

  /** `getCurrentCount`: the stored count, or 0 when the entity has no row. */
  function Lookup(rows: map<string, nat>, entity: string): nat
  {
    if entity in rows then rows[entity] else 0
  }

  /**
   * The upsert of `incrementCount`: a present row is increased by
   * `incrementBy`, an absent one is created holding `incrementBy`.
   */
  function Upsert(rows: map<string, nat>, entity: string, incrementBy: nat): (r: map<string, nat>)
    ensures r.Keys == rows.Keys + {entity}
    ensures Lookup(r, entity) == Lookup(rows, entity) + incrementBy
    ensures forall e :: e != entity ==> Lookup(r, e) == Lookup(rows, e)
  {
    if entity in rows then rows[entity := rows[entity] + incrementBy] else rows[entity := incrementBy]
  }

  /**
   * Two reservations in a row for one entity: the second starts where the
   * first ended, so the ranges `base+1 .. base+n1` and `base+n1+1 .. base+n1+n2`
   * they hand out never overlap.
   */
  lemma SuccessiveIncrements(rows: map<string, nat>, entity: string, n1: nat, n2: nat)
    ensures var once := Upsert(rows, entity, n1);
            && Lookup(once, entity) == Lookup(rows, entity) + n1
            && Lookup(Upsert(once, entity, n2), entity) == Lookup(rows, entity) + n1 + n2
  {
  }

  class CounterService {
    var rows: map<string, nat>

    constructor()
      ensures rows == map[]
    {
      rows := map[];
    }

    method GetCurrentCount(entity: string) returns (count: nat)
      ensures count == Lookup(rows, entity)
      ensures entity !in rows ==> count == 0
    {
      count := Lookup(rows, entity);
    }

    method IncrementCount(entity: string, incrementBy: nat := 1)
      modifies this
      ensures rows == Upsert(old(rows), entity, incrementBy)
    {
      if entity in rows {
        rows := rows[entity := rows[entity] + incrementBy];
      } else {
        rows := rows[entity := incrementBy];
      }
    }
  }
}
