/** The creation tests of src/lib.rs, restated as clients that see only the
    contracts of the engine and the handlers, plus two behaviours those
    tests do not reach: a canonical name shadowing a custom one, and
    repeat visits from one address. */
module Scenarios {
  import opened Wrappers
  import opened Models
  import opened Stats
  import Engine
  import opened Server

  const Google := "http://www.google.com"

  /** An unnamed request succeeds and echoes the target. */
  method CreateCanonical()
  {
    var store := new Engine.Store(map[]);
    var draws := ["Ab3dE2f"];
    assert draws[0] !in store.canonical;
    var r := Create(store, CreateRequest(None, Google), draws);
    assert r.Ok? && r.value.target == Google;
    assert r.value.name == "Ab3dE2f";
  }

  /** A named request succeeds under that name. */
  method CreateCustom()
  {
    var store := new Engine.Store(map[]);
    var r := Create(store, CreateRequest(Some("foo"), Google), []);
    assert r.Ok? && r.value.name == "foo" && r.value.target == Google;
  }

  /** Asking twice for the same target returns the first name, whatever
      the second round of draws would have been. */
  method CreateCanonicalSubsequentReturnsFirstResult()
  {
    var store := new Engine.Store(map[]);
    var draws := ["Ab3dE2f"];
    assert draws[0] !in store.canonical;
    var first := Create(store, CreateRequest(None, Google), draws);
    var assignedName := first.value.name;
    var second := Create(store, CreateRequest(None, Google), ["Zz9Yy8x"]);
    assert second.Ok?;
    assert second.value.name in store.canonical && store.canonical[second.value.name] == Google;
    assert store.canonical == map[assignedName := Google];
    assert second.value.name == assignedName && second.value.target == Google;
  }

  /** Two custom names may share a target. */
  method CreateCustomMultipleForTarget()
  {
    var store := new Engine.Store(map[]);
    var foo := Create(store, CreateRequest(Some("foo"), Google), []);
    var bar := Create(store, CreateRequest(Some("bar"), Google), []);
    assert foo.Ok? && bar.Ok?;
    assert store.custom == map["foo" := Google, "bar" := Google];
  }

  /** A custom request for a name already allocated canonically fails. */
  method CreateCustomFailCanonicalName()
  {
    var store := new Engine.Store(map[]);
    var draws := ["Ab3dE2f"];
    assert draws[0] !in store.canonical;
    var first := Create(store, CreateRequest(None, Google), draws);
    var assignedName := first.value.name;
    var second := Create(store, CreateRequest(Some(assignedName), Google), []);
    assert second == Err(ShortlinkAlreadyExists(assignedName));
    var resp := CreateReply(second);
    assert resp.status.Code() == 409 && resp.body.name == assignedName;
  }

  /** A custom request for a taken custom name fails; a variant of the test
      that posts one name twice, here with a different second target. */
  method CreateCustomFailCustomName()
  {
    var store := new Engine.Store(map[]);
    var first := Create(store, CreateRequest(Some("news"), "http://b.com"), []);
    var second := Create(store, CreateRequest(Some("news"), "http://c.com"), []);
    assert first.Ok? && second == Err(ShortlinkAlreadyExists("news"));
    assert store.custom == map["news" := "http://b.com"];
  }

  /** Canonical allocation checks only canonical names: a draw equal to an
      existing custom name is accepted, and lookups of that name then reach
      the canonical target, hiding the custom one. */
  method CanonicalNameShadowsCustomName()
  {
    var store := new Engine.Store(map[]);
    var custom := Create(store, CreateRequest(Some("abcdefg"), "http://b.com"), []);
    assert custom.Ok?;
    var draws := ["abcdefg"];
    assert draws[0] !in store.canonical;
    var canonical := Create(store, CreateRequest(None, "http://a.com"), draws);
    assert canonical.Ok? && canonical.value.name == "abcdefg";
    assert "abcdefg" in store.canonical && "abcdefg" in store.custom;
    var resp := Load(store, "abcdefg", None);
    assert resp.location == Some("http://a.com");
  }

  /** Two hits from one address: two visit rows, one unique visitor. */
  method RepeatVisitCountsOneVisitor(ip: Option<string>)
  {
    var store := new Engine.Store(map["news" := NaiveDateTime(NaiveDate(0), 0)]);
    var created := Create(store, CreateRequest(Some("news"), "http://b.com"), []);
    var miss := Load(store, "olds", ip);
    assert miss.status == NotFound && store.visits == [];
    var hit1 := Load(store, "news", ip);
    var hit2 := Load(store, "news", ip);
    assert store.visits == [Visit("news", ip), Visit("news", ip)];
    UniqueVisitorsAfterVisit([Visit("news", ip)], "news", Visit("news", ip));
    assert SeenFrom([Visit("news", ip)], "news", ip);
    UniqueVisitorsAfterVisit([], "news", Visit("news", ip));
    var stats := store.GetStats("news", []);
    assert stats.Some? && stats.value.uniqueVisitors == 1;
  }
}
