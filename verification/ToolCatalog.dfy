/** Tool registration and the frozen, sorted catalog (src/tools/set.rs). */
module ToolCatalog {
  import opened Common
  import opened Messages

  datatype ToolSpec = ToolSpec(name: ToolName, description: string)

  datatype ToolSetError = DuplicateTool | Panicked

  /** One registration attempt: the tool's `spec()` either panics or returns a spec. */
  datatype Registration = SpecPanics | Provides(spec: ToolSpec)

  /** The frozen catalog and the lookup map built from the same registrations. */
  datatype ToolSet = ToolSet(specs: seq<ToolSpec>, entries: map<ToolName, ToolSpec>)

  // ---- Name order -------------------------------------------------------------

  /** Strict lexicographic order; tool names are ASCII, so chars order as bytes do. */
  predicate Less(a: ToolName, b: ToolName) {
    b != [] && (a == [] || a[0] < b[0] || (a[0] == b[0] && Less(a[1..], b[1..])))
  }

  lemma {:induction false} LessTrans(a: ToolName, b: ToolName, c: ToolName)
    requires Less(a, b) && Less(b, c)
    ensures Less(a, c)
  {
    if a != [] && a[0] == b[0] == c[0] {
      LessTrans(a[1..], b[1..], c[1..]);
    }
  }

  lemma {:induction false} LessTotal(a: ToolName, b: ToolName)
    ensures !(Less(a, b) && Less(b, a))
    ensures Less(a, b) || Less(b, a) <==> a != b
  {
    if a != [] && b != [] && a[0] == b[0] {
      LessTotal(a[1..], b[1..]);
      assert a == [a[0]] + a[1..] && b == [b[0]] + b[1..];
    }
  }

  predicate Sorted(specs: seq<ToolSpec>) {
    forall i, j | 0 <= i < j < |specs| :: Less(specs[i].name, specs[j].name)
  }

  /** The neighbour test of `ModelRequest::new` decides full sortedness. */
  lemma NeighboursDecideSorted(specs: seq<ToolSpec>)
    ensures Sorted(specs) <==> forall i | 0 <= i < |specs| - 1 :: Less(specs[i].name, specs[i + 1].name)
  {
    if forall i | 0 <= i < |specs| - 1 :: Less(specs[i].name, specs[i + 1].name) {
      forall i, j | 0 <= i < j < |specs| ensures Less(specs[i].name, specs[j].name) {
        NeighboursChain(specs, i, j);
      }
    }
  }

  lemma {:induction false} NeighboursChain(specs: seq<ToolSpec>, i: nat, j: nat)
    requires i < j < |specs|
    requires forall k | 0 <= k < |specs| - 1 :: Less(specs[k].name, specs[k + 1].name)
    ensures Less(specs[i].name, specs[j].name)
    decreases j
  {
    if i + 1 < j {
      NeighboursChain(specs, i, j - 1);
      LessTrans(specs[i].name, specs[j - 1].name, specs[j].name);
    }
  }

  predicate IsLeast(least: ToolName, names: set<ToolName>) {
    least in names && forall n | n in names :: n == least || Less(least, n)
  }

  lemma {:induction false} LeastExists(names: set<ToolName>)
    requires names != {}
    ensures exists least :: IsLeast(least, names)
  {
    hide Less;
    var some :| some in names;
    var rest := names - {some};
    if rest == {} {
      assert names == {some};
      assert IsLeast(some, names);
    } else {
      LeastExists(rest);
      var least :| IsLeast(least, rest);
      LessTotal(least, some);
      var winner := if Less(some, least) then some else least;
      forall n | n in names ensures n == winner || Less(winner, n) {
        if winner == some && n in rest && n != least {
          LessTrans(some, least, n);
        }
      }
      assert IsLeast(winner, names);
    }
  }

  // ---- What a registration sequence means ----------------------------------------

  /** Names to specs, for the registrations that provided one. */
  function Table(rs: seq<Registration>): map<ToolName, ToolSpec> {
    if rs == [] then map[]
    else
      var init := Table(rs[..|rs| - 1]);
      match rs[|rs| - 1]
      case SpecPanics => init
      case Provides(spec) => init[spec.name := spec]
  }

  /** The first problem of a registration sequence; everything after it is ignored. */
  function FirstProblem(rs: seq<Registration>): Option<ToolSetError> {
    if rs == [] then None
    else
      var init := rs[..|rs| - 1];
      var earlier := FirstProblem(init);
      if earlier.Some? then earlier
      else match rs[|rs| - 1]
        case SpecPanics => Some(Panicked)
        case Provides(spec) => if spec.name in Table(init) then Some(DuplicateTool) else None
  }

  predicate Buildable(rs: seq<Registration>) {
    && (forall r | r in rs :: r.Provides?)
    && (forall i, j | 0 <= i < j < |rs| && rs[i].Provides? && rs[j].Provides? :: rs[i].spec.name != rs[j].spec.name)
  }

  lemma {:induction false} TableNames(rs: seq<Registration>)
    ensures forall n :: n in Table(rs) <==> exists i :: 0 <= i < |rs| && rs[i].Provides? && rs[i].spec.name == n
    ensures forall n | n in Table(rs) :: Table(rs)[n].name == n
  {
    if rs != [] {
      var init := rs[..|rs| - 1];
      TableNames(init);
      forall n ensures n in Table(rs) <==> exists i :: 0 <= i < |rs| && rs[i].Provides? && rs[i].spec.name == n {
        if n in Table(init) {
          var i :| 0 <= i < |init| && init[i].Provides? && init[i].spec.name == n;
          assert rs[i] == init[i];
        }
        if i :| 0 <= i < |rs| && rs[i].Provides? && rs[i].spec.name == n {
          if i < |init| {
            assert init[i] == rs[i];
          }
        }
      }
    }
  }

  /** A sequence builds exactly when no spec panics and all names differ. */
  lemma {:induction false} BuildableExact(rs: seq<Registration>)
    ensures FirstProblem(rs).None? <==> Buildable(rs)
  {
    if rs != [] {
      var init := rs[..|rs| - 1];
      var last := rs[|rs| - 1];
      BuildableExact(init);
      TableNames(init);
      assert rs == init + [last];
      if Buildable(rs) {
        assert forall r | r in init :: r in rs;
        assert forall i | 0 <= i < |init| :: init[i] == rs[i];
        assert Buildable(init);
        assert last in rs && last == rs[|init|];
        assert FirstProblem(rs).None?;
      }
      if FirstProblem(rs).None? {
        assert forall r | r in rs :: r in init || r == last;
        forall i, j | 0 <= i < j < |rs| && rs[i].Provides? && rs[j].Provides?
          ensures rs[i].spec.name != rs[j].spec.name
        {
          assert init[i] == rs[i];
          if j < |init| {
            assert init[j] == rs[j];
          }
        }
        assert Buildable(rs);
      }
    }
  }

  /** The catalog lists exactly the map's entries, strictly sorted by name. */
  predicate Frozen(set_: ToolSet) {
    && Sorted(set_.specs)
    && (forall spec | spec in set_.specs :: spec.name in set_.entries && set_.entries[spec.name] == spec)
    && (forall n | n in set_.entries :: set_.entries[n] in set_.specs && set_.entries[n].name == n)
  }

  /** Two frozen sets with equal maps have equal catalogs: registration order is forgotten. */
  lemma {:induction false} FrozenIsCanonical(a: seq<ToolSpec>, b: seq<ToolSpec>)
    requires Sorted(a) && Sorted(b)
    requires forall spec :: spec in a <==> spec in b
    ensures a == b
    decreases |a|
  {
    if a != [] {
      assert a[0] in b;
    }
    if b != [] {
      assert b[0] in a;
      assert a[0] in b;
      LessTotal(a[0].name, b[0].name);
      assert a[0] == b[0];
      forall spec ensures spec in a[1..] <==> spec in b[1..] {
        InTail(a, spec);
        InTail(b, spec);
      }
      FrozenIsCanonical(a[1..], b[1..]);
    }
  }

  lemma InTail(specs: seq<ToolSpec>, spec: ToolSpec)
    requires Sorted(specs) && specs != []
    ensures spec in specs[1..] <==> spec in specs && spec != specs[0]
  {
    if spec in specs[1..] {
      var i :| 0 <= i < |specs[1..]| && specs[1..][i] == spec;
      assert Less(specs[0].name, specs[i + 1].name);
      LessTotal(specs[0].name, spec.name);
    }
    if spec in specs && spec != specs[0] {
      var i :| 0 <= i < |specs| && specs[i] == spec;
      assert specs[1..][i - 1] == spec;
    }
  }

  /** A partly built catalog: it covers `tools` except the still larger names `left`. */
  ghost predicate Building(set_: ToolSet, tools: map<ToolName, ToolSpec>, left: set<ToolName>) {
    && Frozen(set_)
    && set_.entries.Keys == tools.Keys - left
    && left <= tools.Keys
    && (forall n | n in set_.entries :: set_.entries[n] == tools[n])
    && (forall i, n | 0 <= i < |set_.specs| && n in left :: Less(set_.specs[i].name, n))
  }

  function AddSpec(set_: ToolSet, spec: ToolSpec): ToolSet {
    ToolSet(set_.specs + [spec], set_.entries[spec.name := spec])
  }

  lemma BuildingStep(set_: ToolSet, tools: map<ToolName, ToolSpec>, left: set<ToolName>, name: ToolName)
    requires Building(set_, tools, left)
    requires tools.Keys >= left && IsLeast(name, left) && tools[name].name == name
    ensures Building(AddSpec(set_, tools[name]), tools, left - {name})
  {
    hide Less;
    var next := AddSpec(set_, tools[name]);
    forall n | n in next.entries ensures next.entries[n] in next.specs {
      if n == name {
        assert next.specs[|set_.specs|] == tools[name];
      } else {
        assert set_.entries[n] in set_.specs;
      }
    }
    assert Frozen(next);
  }

  // ---- The builder -----------------------------------------------------------------

  class ToolSetBuilder {
    var tools: map<ToolName, ToolSpec>
    var error: Option<ToolSetError>
    ghost var history: seq<Registration>

    ghost predicate Valid()
      reads this
    {
      error == FirstProblem(history) && (error.None? ==> tools == Table(history))
    }

    constructor ()
      ensures Valid() && history == []
    {
      tools, error, history := map[], None, [];
    }

    method RegisterArc(r: Registration)
      requires Valid()
      modifies this
      ensures Valid() && history == old(history) + [r]
    {
      history := history + [r];
      assert history[..|history| - 1] == old(history);
      if error.Some? {
        return;
      }
      match r {
        case SpecPanics =>
          error := Some(Panicked);
        case Provides(spec) =>
          if spec.name in tools {
            error := Some(DuplicateTool);
            return;
          }
          tools := tools[spec.name := spec];
      }
    }

    method Build() returns (r: Result<ToolSet, ToolSetError>)
      requires Valid()
      ensures r.Ok? <==> Buildable(history)
      ensures r.Err? ==> Some(r.error) == FirstProblem(history)
      ensures r.Ok? ==> Frozen(r.value) && r.value.entries == Table(history)
    {
      BuildableExact(history);
      TableNames(history);
      if error.Some? {
        return Err(error.value);
      }
      var frozen := ToolSet([], map[]);
      var left := tools.Keys;
      while left != {}
        invariant Building(frozen, tools, left)
        decreases left
      {
        LeastExists(left);
        var name :| name in left && IsLeast(name, left);
        BuildingStep(frozen, tools, left, name);
        frozen := AddSpec(frozen, tools[name]);
        left := left - {name};
      }
      assert frozen.entries == tools;
      return Ok(frozen);
    }
  }

  /** Registers a whole sequence and freezes it. */
  method BuildToolSet(rs: seq<Registration>) returns (r: Result<ToolSet, ToolSetError>)
    ensures r.Ok? <==> Buildable(rs)
    ensures r.Ok? ==> Frozen(r.value) && r.value.entries == Table(rs)
  {
    var builder := new ToolSetBuilder();
    for i := 0 to |rs|
      invariant builder.Valid() && fresh(builder)
      invariant builder.history == rs[..i]
    {
      builder.RegisterArc(rs[i]);
    }
    assert rs[..|rs|] == rs;
    r := builder.Build();
  }
}
