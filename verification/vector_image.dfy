/** The extract systems of the vector plugin: copying the vector-image
    instances of the app world into the render world
    (`extract_vec_img_instances`), and reconciling the render world's copy
    of the vector-image assets with a batch of asset events
    (`extract_vec_img_render_assets`). */
module VectorImage {
  import opened Common

  /** A vector-image asset: a parsed SVG. */
  datatype VectorImage = VectorImage(svg: Svg)

  /** One row of the query `(&GlobalTransform, &Handle<VectorImage>)`. */
  datatype InstanceRow = InstanceRow(transform: GlobalTransform, handle: HandleId)

  /** `ExtractedVecImgInstance`. */
  datatype ExtractedInstance = ExtractedInstance(transform: GlobalTransform, handle: HandleId)

  // ---------------------------------------------------------------------
  // Instances
  // ---------------------------------------------------------------------

  function ExtractRow(row: InstanceRow): ExtractedInstance
  {
    ExtractedInstance(row.transform, row.handle)
  }

  /** The rows an extracted list was made from. */
  function RowOf(inst: ExtractedInstance): InstanceRow
  {
    InstanceRow(inst.transform, inst.handle)
  }

  /** `extract_vec_img_instances`: one extracted instance per query row, in
      iteration order, carrying the row's transform and handle id. The
      resource is replaced wholesale, so the list depends on the rows alone. */
  function ExtractVecImgInstances(rows: seq<InstanceRow>): (r: seq<ExtractedInstance>)
    ensures |r| == |rows|
    ensures forall i :: 0 <= i < |rows| ==>
      r[i].transform == rows[i].transform && r[i].handle == rows[i].handle
    decreases |rows|
  {
    if rows == [] then []
    else ExtractVecImgInstances(rows[..|rows| - 1]) + [ExtractRow(rows[|rows| - 1])]
  }

  /** The extracted list determines the query rows: reading the rows back
      from it gives the rows it was extracted from. */
  lemma {:induction false} ExtractInstancesRoundTrip(rows: seq<InstanceRow>)
    ensures var r := ExtractVecImgInstances(rows);
      |r| == |rows| && forall i :: 0 <= i < |r| ==> RowOf(r[i]) == rows[i]
  {
  }

  // ---------------------------------------------------------------------
  // Render assets
  // ---------------------------------------------------------------------

  /** `AssetEvent<VectorImage>`. */
  datatype AssetEvent = Created(handle: HandleId) | Modified(handle: HandleId) | Removed(handle: HandleId)

  /** The system panics when the render world has no
      `VectorImageRenderAssets` resource. */
  datatype Failure = MissingRenderAssets

  function Lookup(m: map<HandleId, VectorImage>, h: HandleId): Option<VectorImage>
  {
    if h in m then Some(m[h]) else None
  }

  /** The last event of the batch about handle `h`, if any. */
  function LastEvent(events: seq<AssetEvent>, h: HandleId): Option<AssetEvent>
    decreases |events|
  {
    if events == [] then None
    else if events[|events| - 1].handle == h then Some(events[|events| - 1])
    else LastEvent(events[..|events| - 1], h)
  }

  /** The last event about `h` created or modified it. */
  predicate Fresh(events: seq<AssetEvent>, h: HandleId)
  {
    LastEvent(events, h).Some? && !LastEvent(events, h).value.Removed?
  }

  /** The render-asset entry of `h` after the batch: the asset itself when
      the last event about `h` created or modified it and the asset store
      has it; otherwise nothing if `h` was removed at some point in the
      batch; otherwise the entry it had before. */
  function Expected(m: map<HandleId, VectorImage>, events: seq<AssetEvent>, assets: map<HandleId, VectorImage>, h: HandleId): Option<VectorImage>
  {
    if Fresh(events, h) && h in assets then Some(assets[h])
    else if Removed(h) in events then None
    else Lookup(m, h)
  }

  /** `extract_vec_img_render_assets`: a first pass over the events keeps
      the set of created or modified handles (a removal takes the handle
      out of the set and out of the render-asset map); a second pass
      copies each handle of the set that the asset store has into the
      map, in whatever order the set yields them. */
  method ExtractVecImgRenderAssets(renderAssets: Option<map<HandleId, VectorImage>>, events: seq<AssetEvent>, assets: map<HandleId, VectorImage>)
    returns (r: Result<map<HandleId, VectorImage>, Failure>)
    ensures renderAssets.None? <==> r.Err?
    ensures r.Ok? ==> forall h :: Lookup(r.value, h) == Expected(renderAssets.value, events, assets, h)
    // the cases one by one
    ensures r.Ok? ==> forall h :: LastEvent(events, h) == Some(Removed(h)) ==> h !in r.value
    ensures r.Ok? ==> forall h :: Fresh(events, h) && h in assets ==> h in r.value && r.value[h] == assets[h]
    ensures r.Ok? ==> forall h :: h !in assets && h !in renderAssets.value ==> h !in r.value
    ensures r.Ok? ==> forall h :: LastEvent(events, h).None? ==> Lookup(r.value, h) == Lookup(renderAssets.value, h)
  {
    if renderAssets.None? {
      return Err(MissingRenderAssets);
    }
    var m := renderAssets.value;
    var pending: set<HandleId> := {};
    var i := 0;
    while i < |events|
      invariant 0 <= i <= |events|
      invariant forall h :: h in pending <==> Fresh(events[..i], h)
      invariant forall h :: Lookup(m, h) == (if Removed(h) in events[..i] then None else Lookup(renderAssets.value, h))
    {
      assert events[..i + 1][..i] == events[..i];
      assert forall h :: Removed(h) in events[..i + 1] <==> Removed(h) in events[..i] || events[i] == Removed(h);
      match events[i] {
        case Created(h) => pending := pending + {h};
        case Modified(h) => pending := pending + {h};
        case Removed(h) =>
          pending := pending - {h};
          m := m - {h};
      }
      i := i + 1;
    }
    assert events[..i] == events;
    var afterEvents := m;
    var left := pending;
    while left != {}
      invariant left <= pending
      invariant forall h :: Lookup(m, h) == (if h in pending - left && h in assets then Some(assets[h]) else Lookup(afterEvents, h))
      decreases left
    {
      var h :| h in left;
      if h in assets {
        m := m[h := assets[h]];
      }
      left := left - {h};
    }
    forall h {
      LastEventMentions(events, h);
    }
    return Ok(m);
  }

  /** The last event about `h` is an event of the batch about `h`; with no
      last event, no event of the batch is about `h`. */
  lemma {:induction false} LastEventMentions(events: seq<AssetEvent>, h: HandleId)
    ensures LastEvent(events, h).Some? ==> LastEvent(events, h).value in events && LastEvent(events, h).value.handle == h
    ensures LastEvent(events, h).None? ==> forall i :: 0 <= i < |events| ==> events[i].handle != h
    decreases |events|
  {
    if events != [] {
      var init := events[..|events| - 1];
      LastEventMentions(init, h);
      assert forall x :: x in init ==> x in events;
      assert forall i :: 0 <= i < |init| ==> init[i] == events[i];
    }
  }

  /** Two creation or modification events for one handle in a row act like
      one: the expected outcome of the batch is the same for every
      handle. */
  lemma {:induction false} DuplicateEventsActAsOne(m: map<HandleId, VectorImage>, before: seq<AssetEvent>, e: AssetEvent, after: seq<AssetEvent>, assets: map<HandleId, VectorImage>, h: HandleId)
    requires !e.Removed?
    ensures Expected(m, before + [e, e] + after, assets, h) == Expected(m, before + [e] + after, assets, h)
  {
    LastEventAppend(before + [e, e], after, h);
    LastEventAppend(before + [e], after, h);
    assert (before + [e, e])[..|before + [e, e]| - 1] == before + [e];
    assert forall x :: x in before + [e, e] + after <==> x in before + [e] + after;
  }

  /** Creation and modification are told apart nowhere: replacing one by
      the other for the same handle changes no expected entry. */
  lemma {:induction false} CreatedActsAsModified(m: map<HandleId, VectorImage>, before: seq<AssetEvent>, k: HandleId, after: seq<AssetEvent>, assets: map<HandleId, VectorImage>, h: HandleId)
    ensures Expected(m, before + [Created(k)] + after, assets, h) == Expected(m, before + [Modified(k)] + after, assets, h)
  {
    LastEventAppend(before + [Created(k)], after, h);
    LastEventAppend(before + [Modified(k)], after, h);
    assert (before + [Created(k)])[..|before| ] == before;
    assert (before + [Modified(k)])[..|before| ] == before;
    assert forall x: AssetEvent :: x.Removed? ==> (x in before + [Created(k)] + after <==> x in before + [Modified(k)] + after);
  }

  /** The last event about `h` in `a + b` is its last one in `b`, or, when
      `b` has none, its last one in `a`. */
  lemma {:induction false} LastEventAppend(a: seq<AssetEvent>, b: seq<AssetEvent>, h: HandleId)
    ensures LastEvent(a + b, h) == if LastEvent(b, h).Some? then LastEvent(b, h) else LastEvent(a, h)
    decreases |b|
  {
    if b == [] {
      assert a + b == a;
    } else {
      assert (a + b)[..|a + b| - 1] == a + b[..|b| - 1];
      LastEventAppend(a, b[..|b| - 1], h);
    }
  }
}
