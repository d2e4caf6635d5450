/** The shortlink allocation and lookup engine (src/lib.rs) over an
    abstract store: the two shortlink tables, the visit log and the
    creation timestamps that the stats query reads. Each operation is one
    atomic method; the database's own failures are not modelled. */
module Engine {
  import opened Wrappers
  import opened Models
  import opened Stats

  /** random_name draws this many characters. */
  const NameLength := 7

  /** The alphabet of rand's Alphanumeric distribution: [A-Za-z0-9]. */
  predicate IsAlphanumeric(c: char)
  {
    ('A' <= c <= 'Z') || ('a' <= c <= 'z') || ('0' <= c <= '9')
  }

  /** What random_name can return. */
  predicate IsRandomName(s: string)
  {
    |s| == NameLength && forall k :: 0 <= k < |s| ==> IsAlphanumeric(s[k])
  }

  /** The UNIQUE constraint on canonical_shortlinks.target. */
  ghost predicate UniqueTargets(m: map<string, string>)
  {
    forall a, b :: a in m && b in m && m[a] == m[b] ==> a == b
  }

  /** The index of the first candidate that is not a taken name: the draw
      on which the retry loop stops. */
  function FirstFresh(candidates: seq<string>, taken: set<string>): (k: nat)
    requires exists j :: 0 <= j < |candidates| && candidates[j] !in taken
    ensures k < |candidates| && candidates[k] !in taken
    ensures forall j :: 0 <= j < k ==> candidates[j] in taken
    decreases |candidates|
  {
    if candidates[0] !in taken then 0
    else
      assert forall j :: 1 <= j < |candidates| ==> candidates[1..][j - 1] == candidates[j];
      1 + FirstFresh(candidates[1..], taken)
  }

  /** What the draws of random_name must provide for create_shortlink to
      return: at least the first draw, every draw a random name, and, when
      the target is new, some draw that is not yet a canonical name (the
      source retries without a cap). */
  ghost predicate CanAllocate(candidates: seq<string>, canonical: map<string, string>, target: string)
  {
    && |candidates| > 0
    && (forall j :: 0 <= j < |candidates| ==> IsRandomName(candidates[j]))
    && (target in canonical.Values || exists j :: 0 <= j < |candidates| && candidates[j] !in canonical)
  }

  class Store {
    /** canonical_shortlinks: name -> target, system-chosen names. */
    var canonical: map<string, string>
    /** custom_shortlinks: name -> target, caller-chosen names. */
    var custom: map<string, string>
    /** The visits table, in insertion order. */
    var visits: seq<Visit>
    /** stats.created_on by name; no operation modelled here writes it. */
    var createdOn: map<string, NaiveDateTime>

    /** What the schema and create_shortlink keep true of the canonical table. */
    ghost predicate Valid()
      reads this
    {
      && UniqueTargets(canonical)
      && forall n :: n in canonical ==> IsRandomName(n)
    }

    constructor (createdOn: map<string, NaiveDateTime>)
      ensures Valid()
      ensures canonical == map[] && custom == map[] && visits == []
      ensures this.createdOn == createdOn
    {
      canonical := map[];
      custom := map[];
      visits := [];
      this.createdOn := createdOn;
    }

    /** create_shortlink: insert (name, target) under the first draw; on a
        unique violation, return the existing row for the target if there is
        one, otherwise draw again. Only canonical names are checked. */
    method CreateShortlink(target: string, candidates: seq<string>) returns (r: Shortlink)
      requires Valid()
      requires CanAllocate(candidates, canonical, target)
      modifies this
      ensures Valid()
      ensures custom == old(custom) && visits == old(visits) && createdOn == old(createdOn)
      ensures r.target == target && r.name in canonical && canonical[r.name] == target
      ensures target in old(canonical.Values) ==> canonical == old(canonical)
      ensures target !in old(canonical.Values) ==>
                && r.name == candidates[FirstFresh(candidates, old(canonical.Keys))]
                && r.name !in old(canonical)
                && canonical == old(canonical)[r.name := target]
    {
      var i := 0;
      var entry := Shortlink(candidates[0], target);
      while true
        invariant 0 <= i < |candidates|
        invariant entry == Shortlink(candidates[i], target)
        invariant unchanged(this)
        invariant i > 0 ==> target !in canonical.Values
        invariant forall j :: 0 <= j < i ==> candidates[j] in canonical
        decreases |candidates| - i
      {
        if entry.name !in canonical && target !in canonical.Values {
          // The insertion succeeds.
          canonical := canonical[entry.name := entry.target];
          return entry;
        }
        // A unique violation: look the target up.
        if target in canonical.Values {
          var existing :| existing in canonical && canonical[existing] == target;
          return Shortlink(existing, canonical[existing]);
        }
        // The name was taken: draw the next candidate.
        i := i + 1;
        entry := entry.(name := candidates[i]);
      }
    }

    /** create_custom_shortlink: fail when the name is in either table,
        otherwise insert it into the custom table. */
    method CreateCustomShortlink(name: string, target: string) returns (r: Option<Shortlink>)
      requires Valid()
      modifies this
      ensures Valid()
      ensures canonical == old(canonical) && visits == old(visits) && createdOn == old(createdOn)
      ensures r.None? <==> name in old(canonical) || name in old(custom)
      ensures r.None? ==> custom == old(custom)
      ensures r.Some? ==> r.value == Shortlink(name, target) && custom == old(custom)[name := target]
      ensures old(canonical.Keys !! custom.Keys) ==> canonical.Keys !! custom.Keys
    {
      var inUse := name in canonical || name in custom;
      if !inUse {
        custom := custom[name := target];
        r := Some(Shortlink(name, target));
      } else {
        r := None;
      }
    }

    /** find_target: the canonical row for the name if there is one, else the
        custom row, else nothing; a visit is recorded only on a hit. */
    method FindTarget(name: string, ipAddr: Option<string>) returns (r: Option<string>)
      modifies this
      ensures canonical == old(canonical) && custom == old(custom) && createdOn == old(createdOn)
      ensures name in canonical ==> r == Some(canonical[name])
      ensures name !in canonical && name in custom ==> r == Some(custom[name])
      ensures r.None? <==> name !in canonical && name !in custom
      ensures visits == old(visits) + (if r.Some? then [Visit(name, ipAddr)] else [])
    {
      if name in canonical {
        r := Some(canonical[name]);
      } else if name in custom {
        r := Some(custom[name]);
      } else {
        r := None;
      }
      if r.Some? {
        IncrementVisit(name, ipAddr);
      }
    }

    /** increment_visit: append one row to the visit log. */
    method IncrementVisit(name: string, ipAddr: Option<string>)
      modifies this
      ensures canonical == old(canonical) && custom == old(custom) && createdOn == old(createdOn)
      ensures visits == old(visits) + [Visit(name, ipAddr)]
    {
      visits := visits + [Visit(name, ipAddr)];
    }

    /** get_stats: nothing without a creation timestamp; otherwise the
        summary built from the stored aggregate rows (`aggregate`, the result
        of the database's get_stat function) and the visit log. */
    function GetStats(name: string, aggregate: seq<AggregateVisits>): (r: Option<AggregateStat>)
      reads this
      ensures r.None? <==> name !in createdOn
      ensures r.Some? ==> r.value.name == name && r.value.createdOn == createdOn[name]
      ensures r.Some? ==> r.value.totalVisits == TotalVisits(aggregate)
      ensures r.Some? ==> r.value.visitsPerDay == VisitsPerDay(aggregate)
      ensures r.Some? ==> r.value.uniqueVisitors == |DistinctIps(visits, name)|
    {
      if name !in createdOn then None
      else
        Some(AggregateStat(name, createdOn[name], TotalVisits(aggregate),
                           VisitsPerDay(aggregate), UniqueVisitors(visits, name)))
    }
  }
}
