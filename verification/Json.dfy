/**
 * Bounded JSON: the early-exit traversals of src/value.rs and
 * src/model/replay.rs and their counting writers.
 */
module JsonBounds {
  import opened Common

  const MAX_JSON_BYTES: nat := 65536
  const MAX_JSON_DEPTH: nat := 32
  const MAX_JSON_NODES: nat := 4096
  const MAX_REPLAY_BYTES: nat := 262144
  const MAX_REPLAY_DEPTH: nat := 32
  const MAX_REPLAY_NODES: nat := 16384

  /** JSON shape; object keys do not matter to any bound on depth or nodes. */
  datatype Json = Scalar | Array(items: seq<Json>) | Object(fields: seq<Json>)

  datatype JsonError = JsonLimitTooLarge | JsonTooLarge | JsonTooDeep | JsonTooManyNodes

  function Children(v: Json): seq<Json> {
    match v
    case Scalar => []
    case Array(items) => items
    case Object(fields) => fields
  }

  // ---- Reference measures -----------------------------------------------------

  /** The depths of all nodes of `v` in traversal (pre-)order, its root at depth `d`. */
  function Depths(v: Json, d: nat): (ds: seq<nat>)
    ensures ds != [] && ds[0] == d
    decreases v, 1
  {
    match v
    case Scalar => [d]
    case Array(items) => [d] + DepthsAll(items, d + 1)
    case Object(fields) => [d] + DepthsAll(fields, d + 1)
  }

  function DepthsAll(vs: seq<Json>, d: nat): seq<nat>
    decreases vs, 0
  {
    if vs == [] then [] else Depths(vs[0], d) + DepthsAll(vs[1..], d)
  }

  /** Height above the root and total node count, defined without any traversal order. */
  function Height(v: Json): nat
    decreases v, 1
  {
    match v
    case Scalar => 0
    case Array(items) => if items == [] then 0 else 1 + HeightAll(items)
    case Object(fields) => if fields == [] then 0 else 1 + HeightAll(fields)
  }

  function HeightAll(vs: seq<Json>): nat
    decreases vs, 0
  {
    if vs == [] then 0 else Max(Height(vs[0]), HeightAll(vs[1..]))
  }

  function Count(v: Json): (n: nat)
    ensures n >= 1
    decreases v, 1
  {
    match v
    case Scalar => 1
    case Array(items) => 1 + CountAll(items)
    case Object(fields) => 1 + CountAll(fields)
  }

  function CountAll(vs: seq<Json>): nat
    decreases vs, 0
  {
    if vs == [] then 0 else Count(vs[0]) + CountAll(vs[1..])
  }

  predicate AtMost(ds: seq<nat>, bound: nat) {
    forall i | 0 <= i < |ds| :: ds[i] <= bound
  }

  lemma {:induction false} DepthsMeasure(v: Json, d: nat)
    ensures |Depths(v, d)| == Count(v)
    ensures forall bound: nat :: AtMost(Depths(v, d), bound) <==> d + Height(v) <= bound
    decreases v, 1
  {
    var vs := Children(v);
    if vs != [] {
      DepthsAllMeasure(vs, d + 1);
      forall bound: nat ensures AtMost(Depths(v, d), bound) <==> d + Height(v) <= bound {
        AtMostConcat([d], DepthsAll(vs, d + 1), bound);
      }
    }
  }

  lemma {:induction false} DepthsAllMeasure(vs: seq<Json>, d: nat)
    ensures |DepthsAll(vs, d)| == CountAll(vs)
    ensures forall bound: nat | vs != [] :: AtMost(DepthsAll(vs, d), bound) <==> d + HeightAll(vs) <= bound
    decreases vs, 0
  {
    if vs != [] {
      DepthsMeasure(vs[0], d);
      DepthsAllMeasure(vs[1..], d);
      forall bound: nat ensures AtMost(DepthsAll(vs, d), bound) <==> d + HeightAll(vs) <= bound {
        AtMostConcat(Depths(vs[0], d), DepthsAll(vs[1..], d), bound);
      }
    }
  }

  lemma AtMostConcat(a: seq<nat>, b: seq<nat>, bound: nat)
    ensures AtMost(a + b, bound) <==> AtMost(a, bound) && AtMost(b, bound)
  {
    if AtMost(a + b, bound) {
      forall i | 0 <= i < |a| ensures a[i] <= bound { assert (a + b)[i] == a[i]; }
      forall i | 0 <= i < |b| ensures b[i] <= bound { assert (a + b)[|a| + i] == b[i]; }
    }
  }

  // ---- What an early-exit scan of a preorder does -------------------------------

  /** Visits nodes in order, charging one each, and stops at the first violation. */
  function Scan(ds: seq<nat>, nodes: nat, maxDepth: nat, maxNodes: nat): Option<JsonError> {
    if ds == [] then None
    else if ds[0] > maxDepth then Some(JsonTooDeep)
    else if nodes + 1 > maxNodes then Some(JsonTooManyNodes)
    else Scan(ds[1..], nodes + 1, maxDepth, maxNodes)
  }

  lemma {:induction false} ScanConcat(a: seq<nat>, b: seq<nat>, nodes: nat, maxDepth: nat, maxNodes: nat)
    ensures var first := Scan(a, nodes, maxDepth, maxNodes);
            Scan(a + b, nodes, maxDepth, maxNodes)
            == if first.Some? then first else Scan(b, nodes + |a|, maxDepth, maxNodes)
    decreases |a|
  {
    if a == [] {
      assert a + b == b;
    } else {
      assert (a + b)[1..] == a[1..] + b;
      ScanConcat(a[1..], b, nodes + 1, maxDepth, maxNodes);
    }
  }

  lemma {:induction false} ScanAccepts(ds: seq<nat>, nodes: nat, maxDepth: nat, maxNodes: nat)
    requires nodes <= maxNodes
    ensures Scan(ds, nodes, maxDepth, maxNodes).None? <==> AtMost(ds, maxDepth) && nodes + |ds| <= maxNodes
    decreases |ds|
  {
    if ds != [] {
      if ds[0] <= maxDepth && nodes + 1 <= maxNodes {
        ScanAccepts(ds[1..], nodes + 1, maxDepth, maxNodes);
        AtMostConcat([ds[0]], ds[1..], maxDepth);
        assert [ds[0]] + ds[1..] == ds;
      }
    }
  }

  /** The scan of a whole tree accepts exactly by height and node count. */
  lemma TreeWithinBounds(v: Json, depth: nat, nodes: nat, maxDepth: nat, maxNodes: nat)
    requires nodes <= maxNodes
    ensures Scan(Depths(v, depth), nodes, maxDepth, maxNodes).None?
       <==> depth + Height(v) <= maxDepth && nodes + Count(v) <= maxNodes
  {
    DepthsMeasure(v, depth);
    ScanAccepts(Depths(v, depth), nodes, maxDepth, maxNodes);
  }

  // ---- The source's traversals ---------------------------------------------------

  /** Scanning a forest visits its first tree, then the others. */
  lemma ScanForest(vs: seq<Json>, i: nat, depth: nat, nodes: nat)
    requires i < |vs|
    ensures var first := Scan(Depths(vs[i], depth), nodes, MAX_JSON_DEPTH, MAX_JSON_NODES);
            Scan(DepthsAll(vs[i..], depth), nodes, MAX_JSON_DEPTH, MAX_JSON_NODES)
            == if first.Some? then first
               else Scan(DepthsAll(vs[i + 1..], depth), nodes + Count(vs[i]), MAX_JSON_DEPTH, MAX_JSON_NODES)
    ensures CountAll(vs[i..]) == Count(vs[i]) + CountAll(vs[i + 1..])
  {
    assert vs[i..][1..] == vs[i + 1..];
    ScanConcat(Depths(vs[i], depth), DepthsAll(vs[i + 1..], depth), nodes, MAX_JSON_DEPTH, MAX_JSON_NODES);
    DepthsMeasure(vs[i], depth);
  }

  lemma ScanTree(v: Json, depth: nat, nodes: nat)
    requires depth <= MAX_JSON_DEPTH && nodes + 1 <= MAX_JSON_NODES
    ensures Scan(Depths(v, depth), nodes, MAX_JSON_DEPTH, MAX_JSON_NODES)
         == Scan(DepthsAll(Children(v), depth + 1), nodes + 1, MAX_JSON_DEPTH, MAX_JSON_NODES)
    ensures Count(v) == 1 + CountAll(Children(v))
  {
    assert Depths(v, depth)[1..] == DepthsAll(Children(v), depth + 1);
  }

  /** The root alone can fail the scan. */
  lemma ScanRoot(v: Json, depth: nat, nodes: nat)
    ensures depth > MAX_JSON_DEPTH ==> Scan(Depths(v, depth), nodes, MAX_JSON_DEPTH, MAX_JSON_NODES) == Some(JsonTooDeep)
    ensures depth <= MAX_JSON_DEPTH && nodes + 1 > MAX_JSON_NODES ==>
      Scan(Depths(v, depth), nodes, MAX_JSON_DEPTH, MAX_JSON_NODES) == Some(JsonTooManyNodes)
  {
    hide DepthsAll;
  }

  lemma ScanNothing(depth: nat)
    ensures DepthsAll([], depth) == [] && CountAll([]) == 0
    ensures forall nodes: nat :: Scan([], nodes, MAX_JSON_DEPTH, MAX_JSON_NODES).None?
  {
  }

  /** `validate_json_shape`: depth test, then charge, then node test, then children. */
  method ValidateJsonShape(v: Json, depth: nat, nodes: nat) returns (error: Option<JsonError>, nodes': nat)
    requires nodes <= MAX_JSON_NODES
    ensures error == Scan(Depths(v, depth), nodes, MAX_JSON_DEPTH, MAX_JSON_NODES)
    ensures error.None? <==> depth + Height(v) <= MAX_JSON_DEPTH && nodes + Count(v) <= MAX_JSON_NODES
    ensures error.None? ==> nodes' == nodes + Count(v)
    decreases v
  {
    hide Scan, Depths, DepthsAll, Count, CountAll, Height, HeightAll;
    TreeWithinBounds(v, depth, nodes, MAX_JSON_DEPTH, MAX_JSON_NODES);
    ScanRoot(v, depth, nodes);
    if depth > MAX_JSON_DEPTH {
      return Some(JsonTooDeep), nodes;
    }
    nodes' := nodes + 1;
    if nodes' > MAX_JSON_NODES {
      return Some(JsonTooManyNodes), nodes';
    }
    ScanTree(v, depth, nodes);
    ScanNothing(depth + 1);
    var vs := Children(v);
    assert vs[0..] == vs;
    var i := 0;
    while i < |vs|
      invariant 0 <= i <= |vs|
      invariant nodes' <= MAX_JSON_NODES
      invariant nodes' + CountAll(vs[i..]) == nodes + Count(v)
      invariant Scan(DepthsAll(vs[i..], depth + 1), nodes', MAX_JSON_DEPTH, MAX_JSON_NODES)
             == Scan(Depths(v, depth), nodes, MAX_JSON_DEPTH, MAX_JSON_NODES)
    {
      ScanForest(vs, i, depth + 1, nodes');
      error, nodes' := ValidateJsonShape(vs[i], depth + 1, nodes');
      if error.Some? {
        return;
      }
      i := i + 1;
    }
    assert vs[|vs|..] == [];
    return None, nodes';
  }

  /** `validate_shape` of the replay envelope: charge first, then both tests at once. */
  method ValidateReplayShape(v: Json, depth: nat, nodes: nat) returns (ok: bool, nodes': nat)
    requires nodes <= MAX_REPLAY_NODES
    ensures ok <==> depth + Height(v) <= MAX_REPLAY_DEPTH && nodes + Count(v) <= MAX_REPLAY_NODES
    ensures ok ==> nodes' == nodes + Count(v)
    decreases v
  {
    nodes' := nodes + 1;
    var vs := Children(v);
    if depth > MAX_REPLAY_DEPTH || nodes' > MAX_REPLAY_NODES {
      return false, nodes';
    }
    var i := 0;
    ghost var seen: nat := 0;
    while i < |vs|
      invariant 0 <= i <= |vs|
      invariant if i == 0 then seen == 0 else depth + 1 + seen <= MAX_REPLAY_DEPTH
      invariant nodes' <= MAX_REPLAY_NODES
      invariant nodes' + CountAll(vs[i..]) == nodes + Count(v)
      invariant vs != [] ==> HeightAll(vs) == Max(seen, HeightAll(vs[i..]))
    {
      assert vs[i..][1..] == vs[i + 1..];
      ok, nodes' := ValidateReplayShape(vs[i], depth + 1, nodes');
      if !ok {
        return;
      }
      seen := Max(seen, Height(vs[i]));
      i := i + 1;
    }
    return true, nodes';
  }

  // ---- Counting writers ------------------------------------------------------------

  function TotalLen(chunks: seq<seq<bv8>>): nat {
    if chunks == [] then 0 else |chunks[0]| + TotalLen(chunks[1..])
  }

  /** `JsonCountingWriter`; the replay `CountingWriter` is the same with its own maximum. */
  class CountingWriter {
    const maxBytes: nat
    var written: nat
    var exceeded: bool

    constructor (maxBytes: nat)
      ensures this.maxBytes == maxBytes && written == 0 && !exceeded
    {
      this.maxBytes := maxBytes;
      written, exceeded := 0, false;
    }

    method Write(bytes: seq<bv8>) returns (ok: bool)
      modifies this
      ensures ok <==> old(written) + |bytes| <= maxBytes || |bytes| == 0
      ensures written == if ok then old(written) + |bytes| else old(written)
      ensures exceeded == (old(exceeded) || !ok)
    {
      var remaining := if written <= maxBytes then maxBytes - written else 0;
      if |bytes| > remaining {
        exceeded := true;
        return false;
      }
      written := written + |bytes|;
      return true;
    }
  }

  /** A serializer stops at the first refused write; only the total length decides. */
  method SerializeTo(chunks: seq<seq<bv8>>, maxBytes: nat) returns (written: Option<nat>)
    ensures written == if TotalLen(chunks) <= maxBytes then Some(TotalLen(chunks)) else None
  {
    var sink := new CountingWriter(maxBytes);
    var i := 0;
    while i < |chunks|
      invariant 0 <= i <= |chunks|
      invariant sink.written <= maxBytes
      invariant sink.written + TotalLen(chunks[i..]) == TotalLen(chunks)
    {
      assert chunks[i..][1..] == chunks[i + 1..];
      var ok := sink.Write(chunks[i]);
      if !ok {
        return None;
      }
      i := i + 1;
    }
    return Some(sink.written);
  }

  /** `validate_json_size`; `chunks` is the serializer's output, however it is split. */
  method ValidateJsonSize(v: Json, chunks: seq<seq<bv8>>, maxBytes: nat) returns (error: Option<JsonError>)
    ensures error.None? <==>
      && maxBytes <= MAX_JSON_BYTES
      && Height(v) <= MAX_JSON_DEPTH
      && Count(v) <= MAX_JSON_NODES
      && TotalLen(chunks) <= maxBytes
    ensures maxBytes > MAX_JSON_BYTES ==> error == Some(JsonLimitTooLarge)
    ensures maxBytes <= MAX_JSON_BYTES && !(Height(v) <= MAX_JSON_DEPTH && Count(v) <= MAX_JSON_NODES) ==>
      error == Scan(Depths(v, 0), 0, MAX_JSON_DEPTH, MAX_JSON_NODES)
    ensures maxBytes <= MAX_JSON_BYTES && Height(v) <= MAX_JSON_DEPTH && Count(v) <= MAX_JSON_NODES && TotalLen(chunks) > maxBytes ==>
      error == Some(JsonTooLarge)
  {
    if maxBytes > MAX_JSON_BYTES {
      return Some(JsonLimitTooLarge);
    }
    var nodes;
    error, nodes := ValidateJsonShape(v, 0, 0);
    if error.Some? {
      return;
    }
    var written := SerializeTo(chunks, maxBytes);
    return if written.Some? then None else Some(JsonTooLarge);
  }

  predicate ReplayFormatChar(c: char) {
    'a' <= c <= 'z' || 'A' <= c <= 'Z' || '0' <= c <= '9' || c in "_-.:/"
  }

  /** `ProviderReplay::new`: an accepted envelope records its exact serialized size. */
  method NewProviderReplay(format: string, payload: Json, chunks: seq<seq<bv8>>) returns (bytes: Option<nat>)
    ensures bytes.Some? <==>
      && 1 <= |format| <= 128 && (forall c | c in format :: ReplayFormatChar(c))
      && Height(payload) <= MAX_REPLAY_DEPTH
      && Count(payload) <= MAX_REPLAY_NODES
      && TotalLen(chunks) <= MAX_REPLAY_BYTES
    ensures bytes.Some? ==> bytes.value == TotalLen(chunks)
  {
    if format == [] || |format| > 128 || exists c | c in format :: !ReplayFormatChar(c) {
      return None;
    }
    var ok, nodes := ValidateReplayShape(payload, 0, 0);
    if !ok {
      return None;
    }
    bytes := SerializeTo(chunks, MAX_REPLAY_BYTES);
  }
}
