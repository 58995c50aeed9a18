/** TravelPlanRepository: the local table of travel plans. JPA is replaced by
    a sequence of rows kept in id order and a counter that hands out ids. */
module TravelPlanStore {
  import opened Common
  import opened TravelPlans

  /** The first row of `rows` whose id is `id`, or null (EntityManager.find). */
  function Lookup(rows: seq<TravelPlan>, id: int): (r: Option<TravelPlan>)
    ensures r.Some? <==> exists i :: 0 <= i < |rows| && rows[i].id == Some(id)
    ensures r.Some? ==> r.value in rows && r.value.id == Some(id)
  {
    if rows == [] then None
    else if rows[0].id == Some(id) then Some(rows[0])
    else
      var r := Lookup(rows[1..], id);
      assert forall i :: 0 < i < |rows| ==> rows[i] == rows[1..][i - 1];
      r
  }

  /** The rows left after removing the plan with id `id`. */
  function RemoveId(rows: seq<TravelPlan>, id: int): (r: seq<TravelPlan>)
    ensures forall p :: p in r <==> p in rows && p.id != Some(id)
    ensures |r| <= |rows|
  {
    if rows == [] then []
    else (if rows[0].id == Some(id) then [] else [rows[0]]) + RemoveId(rows[1..], id)
  }

  /** The tail of an ascending table is ascending and lies above its head. */
  lemma AscendingTail(rows: seq<TravelPlan>)
    requires Ascending(rows) && rows != []
    ensures Ascending(rows[1..])
    ensures forall p :: p in rows[1..] ==> rows[0].id.value < p.id.value
  {
    var tail := rows[1..];
    forall i | 0 <= i < |tail| ensures tail[i] == rows[i + 1] { }
  }

  /** A plan below every row of an ascending table can be put in front. */
  lemma AscendingCons(x: TravelPlan, rows: seq<TravelPlan>)
    requires Ascending(rows) && x.id.Some?
    requires forall p :: p in rows ==> x.id.value < p.id.value
    ensures Ascending([x] + rows)
  {
    var r := [x] + rows;
    forall j | 0 < j < |r| ensures r[j] == rows[j - 1] && r[j] in rows { }
  }

  /** Removing rows keeps them in ascending id order. */
  lemma {:induction false} RemoveIdAscending(rows: seq<TravelPlan>, id: int)
    requires Ascending(rows)
    ensures Ascending(RemoveId(rows, id))
  {
    if rows != [] {
      var tail := rows[1..];
      AscendingTail(rows);
      RemoveIdAscending(tail, id);
      if rows[0].id != Some(id) {
        AscendingCons(rows[0], RemoveId(tail, id));
      }
    }
  }

  /** A plan appended with a fresh id is what a lookup of that id finds. */
  lemma {:induction false} LookupAppended(rows: seq<TravelPlan>, p: TravelPlan)
    requires p.id.Some?
    requires forall i :: 0 <= i < |rows| ==> rows[i].id != p.id
    ensures Lookup(rows + [p], p.id.value) == Some(p)
  {
    if rows != [] {
      assert (rows + [p])[1..] == rows[1..] + [p];
      LookupAppended(rows[1..], p);
    }
  }

  class TravelPlanRepository {
    /** The stored plans, in ascending id order. */
    var rows: seq<TravelPlan>
    /** The id the next persisted plan receives. */
    var nextId: int

    ghost predicate Valid()
      reads this
    {
      Ascending(rows) && forall i :: 0 <= i < |rows| ==> rows[i].id.value < nextId
    }

    constructor ()
      ensures Valid() && rows == [] && nextId == 1
    {
      rows := [];
      nextId := 1;
    }

    /** findAll: every stored plan, ordered by ascending id. */
    function FindAll(): (r: seq<TravelPlan>)
      reads this
      requires Valid()
      ensures Ascending(r)
      ensures forall p :: p in r <==> p in rows
      ensures |r| == |rows|
    {
      rows
    }

    /** findById: the plan with that id, or null when there is none. */
    function FindById(id: int): (r: Option<TravelPlan>)
      reads this
      ensures r.None? <==> forall i :: 0 <= i < |rows| ==> rows[i].id != Some(id)
      ensures r.Some? ==> r.value in rows && r.value.id == Some(id)
    {
      Lookup(rows, id)
    }

    /** create: persist gives the plan a fresh id and stores it; a plan that
        already carries an id is a detached entity and persist rejects it. */
    method Create(plan: TravelPlan) returns (r: Result<TravelPlan>)
      requires Valid()
      modifies this
      ensures Valid()
      ensures plan.id.Some? ==> r == Err(Other(DETACHED_MESSAGE)) && rows == old(rows) && nextId == old(nextId)
      ensures plan.id.None? ==>
        r == Ok(plan.(id := Some(old(nextId)))) &&
        rows == old(rows) + [r.value] && nextId == old(nextId) + 1 &&
        FindById(old(nextId)) == Some(r.value)
    {
      if plan.id.Some? {
        r := Err(Other(DETACHED_MESSAGE));
        return;
      }
      var stored := plan.(id := Some(nextId));
      LookupAppended(rows, stored);
      rows := rows + [stored];
      nextId := nextId + 1;
      r := Ok(stored);
    }

    /** delete: with an id, the row with that id is removed (merge of an id
        that is not stored adds nothing to remove); without one nothing
        changes. Either way the argument is returned. */
    method Delete(plan: TravelPlan) returns (r: TravelPlan)
      requires Valid()
      modifies this
      ensures Valid() && r == plan && nextId == old(nextId)
      ensures plan.id.None? ==> rows == old(rows)
      ensures plan.id.Some? ==> rows == RemoveId(old(rows), plan.id.value) && FindById(plan.id.value).None?
    {
      if plan.id.Some? {
        RemoveIdAscending(rows, plan.id.value);
        rows := RemoveId(rows, plan.id.value);
      }
      r := plan;
    }
  }
}
