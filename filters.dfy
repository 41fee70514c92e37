/** Dropping the volatile bookkeeping keys from a map of entity states. */
module Filters {
  import opened PyValues

  const Volatile: set<string> := {"context", "last_reported", "last_updated", "last_changed"}

  /** A state dict without its volatile keys, in the original order. */
  function DropVolatile(state: Dict): (r: Dict)
    ensures |r| <= |state|
    ensures forall k :: Find(r, k) == if k in Volatile then None else Find(state, k)
  {
    if state == [] then []
    else
      var rest := DropVolatile(state[1..]);
      if state[0].0 in Volatile then rest else [state[0]] + rest
  }

  /** The filtered state of one entity: dict states lose the volatile keys,
      anything else is copied as it is. */
  function FilterState(state: Json): Json {
    if state.JDict? then JDict(DropVolatile(state.entries)) else state
  }

  function FilterEntries(e: Dict): (r: Dict)
    ensures Keys(r) == Keys(e)
    ensures forall i :: 0 <= i < |e| ==> r[i].1 == FilterState(e[i].1)
  {
    if e == [] then [] else [(e[0].0, FilterState(e[0].1))] + FilterEntries(e[1..])
  }

  /** What `filter_entity_map` returns. */
  function FilterSpec(entityMap: Json): Json {
    if entityMap.JDict? then JDict(FilterEntries(entityMap.entries)) else entityMap
  }

  /** `filter_entity_map` */
  method FilterEntityMap(entityMap: Json) returns (r: Json)
    ensures r == FilterSpec(entityMap)
    ensures !entityMap.JDict? ==> r == entityMap
    ensures entityMap.JDict? ==> r.JDict? && Keys(r.entries) == Keys(entityMap.entries)
  {
    if !entityMap.JDict? {
      return entityMap;
    }
    var e := entityMap.entries;
    var filtered: Dict := [];
    for i := 0 to |e|
      invariant filtered == FilterEntries(e[..i])
    {
      var (eid, state) := e[i];
      assert e[..i + 1] == e[..i] + [e[i]];
      FilterEntriesAppend(e[..i], e[i]);
      // A dict's keys are distinct, so `filtered_map[eid] = ...` adds a new entry.
      if !state.JDict? {
        filtered := filtered + [(eid, state)];
      } else {
        filtered := filtered + [(eid, JDict(DropVolatile(state.entries)))];
      }
    }
    assert e[..|e|] == e;
    r := JDict(filtered);
  }

  lemma {:induction false} FilterEntriesAppend(e: Dict, p: (string, Json))
    ensures FilterEntries(e + [p]) == FilterEntries(e) + [(p.0, FilterState(p.1))]
  {
    if e != [] {
      assert (e + [p])[1..] == e[1..] + [p];
      FilterEntriesAppend(e[1..], p);
    }
  }

  /** Every entity keeps its id; a dict state keeps every key but the four
      volatile ones, with the same values, and loses exactly those. */
  lemma FilterKeepsEverythingElse(entityMap: Json, eid: string, k: string)
    requires entityMap.JDict?
    ensures FilterSpec(entityMap).JDict?
    ensures HasKey(FilterSpec(entityMap).entries, eid) <==> HasKey(entityMap.entries, eid)
    ensures Find(entityMap.entries, eid).Some? && Find(entityMap.entries, eid).value.JDict? ==>
      var before := Find(entityMap.entries, eid).value.entries;
      var after := Find(FilterSpec(entityMap).entries, eid).value;
      after.JDict? && Find(after.entries, k) == (if k in Volatile then None else Find(before, k))
    ensures Find(entityMap.entries, eid).Some? && !Find(entityMap.entries, eid).value.JDict? ==>
      Find(FilterSpec(entityMap).entries, eid) == Find(entityMap.entries, eid)
  {
    FindFiltered(entityMap.entries, eid);
  }

  lemma {:induction false} FindFiltered(e: Dict, eid: string)
    ensures Find(FilterEntries(e), eid) ==
      match Find(e, eid)
      case None => None
      case Some(s) => Some(FilterState(s))
  {
    if e != [] {
      FindFiltered(e[1..], eid);
    }
  }

  lemma {:induction false} DropVolatileIdempotent(state: Dict)
    ensures DropVolatile(DropVolatile(state)) == DropVolatile(state)
  {
    if state != [] {
      DropVolatileIdempotent(state[1..]);
    }
  }

  /** Filtering an already filtered map changes nothing. */
  lemma {:induction false} FilterIdempotent(entityMap: Json)
    ensures FilterSpec(FilterSpec(entityMap)) == FilterSpec(entityMap)
  {
    if entityMap.JDict? {
      FilterEntriesIdempotent(entityMap.entries);
    }
  }

  lemma {:induction false} FilterEntriesIdempotent(e: Dict)
    ensures FilterEntries(FilterEntries(e)) == FilterEntries(e)
  {
    if e != [] {
      FilterEntriesIdempotent(e[1..]);
      if e[0].1.JDict? {
        DropVolatileIdempotent(e[0].1.entries);
      }
    }
  }
}
