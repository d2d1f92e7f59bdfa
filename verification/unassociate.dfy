/** The unit helpers of the Pulp 2 RPM unassociation tests
    (pulp_smash/tests/rpm/api_v2/test_unassociate.py): a unit's identifying
    field, the units of one type, and the request that removes one unit
    from a repository. */
module Unassociate {
  import opened Results
  import opened Json
  import opened Urls
  import Api
  import Seqs

  // ---------------------------------------------------------------------
  // _get_unit_id

  /** The unit types identified by their `_id` field rather than `id`. */
  const IdByUnderscore: set<string> := {"package_langpacks", "rpm", "srpm", "drpm"}

  /** The identifying field of a unit of this type. */
  function IdKey(unitTypeId: Json): (r: string)
    ensures r == "_id" <==> unitTypeId.JStr? && unitTypeId.s in IdByUnderscore
    ensures r == "_id" || r == "id"
  {
    if unitTypeId.JStr? && unitTypeId.s in IdByUnderscore then "_id" else "id"
  }

  /** `_get_unit_id(unit)`: the name and value of the unit's identifying
      metadata field, `_id` for packages and language packs and `id`
      otherwise; a unit without a type or without that field raises. */
  function UnitId(unit: Json): (r: Result<(string, Json)>)
    ensures r.Ok? <==>
      Subscript(unit, "unit_type_id").Ok? && Subscript(unit, "metadata").Ok?
      && Subscript(Subscript(unit, "metadata").value, IdKey(Subscript(unit, "unit_type_id").value)).Ok?
    ensures r.Ok? ==> r.value.0 == IdKey(Subscript(unit, "unit_type_id").value)
    ensures r.Ok? ==> Subscript(Subscript(unit, "metadata").value, r.value.0) == Ok(r.value.1)
    ensures Subscript(unit, "unit_type_id").Err? ==> r == Err(Subscript(unit, "unit_type_id").error)
  {
    var unitTypeId :- Subscript(unit, "unit_type_id");
    var key := IdKey(unitTypeId);
    var metadata :- Subscript(unit, "metadata");
    var value :- Subscript(metadata, key);
    Ok((key, value))
  }

  // ---------------------------------------------------------------------
  // _get_units_by_type

  /** A unit's type, as `unit['unit_type_id']` reads it. */
  function TypeOf(unit: Json): Result<Json> {
    Subscript(unit, "unit_type_id")
  }

  /** Whether a unit's type is the one asked for. */
  predicate OfType(unit: Json, typeId: Json) {
    TypeOf(unit) == Ok(typeId)
  }

  /** `_get_units_by_type(units, type_id)`: the units of the type, in their
      order and as often as they occur; the first unit without a type
      raises. */
  function UnitsByType(units: seq<Json>, typeId: Json): (r: Result<seq<Json>>)
    ensures r.Err? <==> exists i :: 0 <= i < |units| && TypeOf(units[i]).Err?
    ensures r.Err? ==> exists i :: 0 <= i < |units| && TypeOf(units[i]) == Err(r.error)
    ensures r.Ok? ==> forall i :: 0 <= i < |r.value| ==> OfType(r.value[i], typeId)
    ensures r.Ok? ==> Seqs.IsSubseq(r.value, units)
    ensures r.Ok? ==> forall u :: OfType(u, typeId) ==> multiset(r.value)[u] == multiset(units)[u]
  {
    match Seqs.FirstErr(units, TypeOf)
    case Some(e) => Err(e)
    case None =>
      var p := (u: Json) => OfType(u, typeId);
      var kept := Seqs.Filter(units, p);
      Seqs.FilterIsSubseq(units, p);
      forall u | OfType(u, typeId)
        ensures multiset(kept)[u] == multiset(units)[u]
      {
        Seqs.FilterCount(units, p, u);
      }
      Ok(kept)
  }

  // ---------------------------------------------------------------------
  // _remove_unit

  /** The criteria selecting the units with this identifying value among
      the units of this type. */
  function RemoveCriteria(key: string, value: Json, unitTypeId: Json): Json {
    JObj([("filters", JObj([("unit", JObj([(key, value)]))])),
          ("type_ids", JArr([unitTypeId]))])
  }

  /** `_remove_unit(cfg, repo, unit)`: a POST of the unit's criteria to the
      repository's `actions/unassociate/`, with the default handler. The
      repository's `_href` is read as `urljoin` reads it, so a null href
      posts to the bare `actions/unassociate/`. */
  function RemoveUnitCall(repo: Json, unit: Json): (r: Result<Api.Call>)
    ensures r.Ok? <==> JoinArgAt(repo, "_href").Ok? && UnitId(unit).Ok?
    ensures JoinArgAt(repo, "_href").Err? ==> r == Err(JoinArgAt(repo, "_href").error)
    ensures r.Ok? ==> r.value.verb == "POST" && r.value.handler == Api.SafeHandler
    ensures r.Ok? ==> r.value.url == UrlJoin(JoinArgAt(repo, "_href").value, "actions/unassociate/")
    ensures r.Ok? && !Truthy(Subscript(repo, "_href").value) ==> r.value.url == "actions/unassociate/"
    ensures r.Ok? ==>
      r.value.body == Some(JObj([("criteria", RemoveCriteria(UnitId(unit).value.0, UnitId(unit).value.1, TypeOf(unit).value))]))
  {
    var href :- JoinArgAt(repo, "_href");
    var path := UrlJoin(href, "actions/unassociate/");
    var id :- UnitId(unit);
    var unitTypeId := TypeOf(unit).value;
    Ok(Api.Call("POST", path, Some(JObj([("criteria", RemoveCriteria(id.0, id.1, unitTypeId))])), Api.SafeHandler))
  }

  /** What Pulp selects with criteria of this shape: a unit whose type is
      one of the type ids and whose metadata has every field of the unit
      filter at the filter's value. */
  predicate Selects(criteria: Json, unit: Json) {
    criteria.JObj?
    && HasKey(criteria.fields, "type_ids") && Get(criteria.fields, "type_ids").value.JArr?
    && HasKey(criteria.fields, "filters") && Subscript(Get(criteria.fields, "filters").value, "unit").Ok?
    && Subscript(Get(criteria.fields, "filters").value, "unit").value.JObj?
    && TypeOf(unit).Ok? && TypeOf(unit).value in Get(criteria.fields, "type_ids").value.items
    && Subscript(unit, "metadata").Ok?
    && var conditions := Subscript(Get(criteria.fields, "filters").value, "unit").value.fields;
       forall i :: 0 <= i < |conditions| ==>
         Subscript(Subscript(unit, "metadata").value, conditions[i].0) == Ok(conditions[i].1)
  }

  /** The removal criteria select exactly the units of the same type whose
      identifying field has the same value. */
  lemma {:induction false} RemoveCriteriaSelects(key: string, value: Json, unitTypeId: Json, other: Json)
    ensures Selects(RemoveCriteria(key, value, unitTypeId), other) <==>
      TypeOf(other) == Ok(unitTypeId) && Subscript(other, "metadata").Ok?
      && Subscript(Subscript(other, "metadata").value, key) == Ok(value)
  {
    var c := RemoveCriteria(key, value, unitTypeId);
    GetTwo("filters", c.fields[0].1, "type_ids", c.fields[1].1, "type_ids");
    GetTwo("filters", c.fields[0].1, "type_ids", c.fields[1].1, "filters");
    var filters := JObj([("unit", JObj([(key, value)]))]);
    assert Subscript(filters, "unit") == Ok(JObj([(key, value)]));
    var conditions := [(key, value)];
    assert Selects(c, other) <==>
      TypeOf(other).Ok? && TypeOf(other).value in [unitTypeId] && Subscript(other, "metadata").Ok?
      && forall i :: 0 <= i < |conditions| ==>
           Subscript(Subscript(other, "metadata").value, conditions[i].0) == Ok(conditions[i].1);
    assert conditions[0] == (key, value);
    assert TypeOf(other).Ok? ==> (TypeOf(other).value in [unitTypeId] <==> TypeOf(other) == Ok(unitTypeId));
  }

  /** The request removes the unit it was made for: its criteria select
      that unit. */
  lemma RemoveUnitSelectsItself(repo: Json, unit: Json)
    requires RemoveUnitCall(repo, unit).Ok?
    ensures Selects(RemoveCriteria(UnitId(unit).value.0, UnitId(unit).value.1, TypeOf(unit).value), unit)
  {
    var id := UnitId(unit).value;
    RemoveCriteriaSelects(id.0, id.1, TypeOf(unit).value, unit);
  }
}
