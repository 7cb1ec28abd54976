/**
 * The `MapBase` object: the query-adjustable view state, the startup
 * validator `beforeLoad` that fills it in, and the chunked `yieldingLoop`.
 */
module MapBase {
  import opened Wrappers
  import opened JsBuiltins
  import opened QueryParams
  import opened ChunkSchedule

  class MapBase {
    const minZoom: int := 4
    const maxZoom: int := 7

    // Fields that BeforeLoad may overwrite from the query.
    var isPreviewMode: bool
    var colorOverride: Option<string>
    var themeOverride: Option<string>
    var viewportX: JsValue
    var viewportY: JsValue
    var viewportZoom: int

    /**
     * What the query parameters can leave in the view state: a zoom within
     * bounds, only the one namespaced theme, only palette colours, and a centre
     * that is either numeric or a single comma-free part of `ft`.
     */
    predicate Valid()
      reads this
    {
      && minZoom <= viewportZoom <= maxZoom
      && (themeOverride.Some? ==> themeOverride.value == "map.layers.default")
      && (colorOverride.Some? ==> colorOverride.value in Palette)
      && (viewportX.Str? ==> ',' !in viewportX.s)
      && (viewportY.Str? ==> ',' !in viewportY.s)
    }

    /** The defaults the object literal starts with. */
    constructor ()
      ensures Valid()
      ensures !isPreviewMode && colorOverride.None? && themeOverride.None?
      ensures viewportX == Num(-24) && viewportY == Num(24) && viewportZoom == 4
    {
      isPreviewMode := false;
      colorOverride := None;
      themeOverride := None;
      viewportX := Num(-24);
      viewportY := Num(24);
      viewportZoom := 4;
    }

    /**
     * `beforeLoad`: each parameter overwrites its field only when its value
     * passes the check; anything else leaves the field as it was.
     */
    method BeforeLoad(query: Query, parseInt: string -> Option<int>, isTruthyNumber: string -> bool)
      requires Valid()
      modifies this
      ensures Valid()
      ensures isPreviewMode == (old(isPreviewMode) || Truthy(GetParameterByName(query, "q")))
      ensures var t := ThemeOverride(GetParameterByName(query, "theme"));
        themeOverride == if t.Some? then t else old(themeOverride)
      ensures var z := ZoomOverride(GetParameterByName(query, "z"), parseInt, minZoom, maxZoom);
        viewportZoom == if z.Some? then z.value else old(viewportZoom)
      ensures var c := CenterOverride(GetParameterByName(query, "ft"), isTruthyNumber);
        (viewportX, viewportY) == if c.Some? then (Str(c.value.0), Str(c.value.1)) else old((viewportX, viewportY))
      ensures var c := ColorOverride(GetParameterByName(query, "c"));
        colorOverride == if c.Some? then c else old(colorOverride)
    {
      ApplyPreviewParam(GetParameterByName(query, "q"));
      ApplyThemeParam(GetParameterByName(query, "theme"));
      ApplyZoomParam(GetParameterByName(query, "z"), parseInt);
      ApplyFlyToParam(GetParameterByName(query, "ft"), isTruthyNumber);
      ApplyColorParam(GetParameterByName(query, "c"));
    }

    /** Applies `q`: preview mode is switched on when `q` is present and non-empty. */
    method ApplyPreviewParam(q: Option<string>)
      requires Valid()
      modifies this`isPreviewMode
      ensures Valid()
      ensures isPreviewMode == (old(isPreviewMode) || Truthy(q))
    {
      if Truthy(q) {
        isPreviewMode := true;
      }
    }

    /** Applies `theme`: the theme override is replaced when `ThemeOverride` accepts it. */
    method ApplyThemeParam(theme: Option<string>)
      requires Valid()
      modifies this`themeOverride
      ensures Valid()
      ensures var t := ThemeOverride(theme); themeOverride == if t.Some? then t else old(themeOverride)
    {
      var t := ThemeOverride(theme);
      if t.Some? {
        themeOverride := t;
      }
    }

    /** Applies `z`: the initial zoom is replaced when `ZoomOverride` accepts it. */
    method ApplyZoomParam(z: Option<string>, parseInt: string -> Option<int>)
      requires Valid()
      modifies this`viewportZoom
      ensures Valid()
      ensures var zoom := ZoomOverride(z, parseInt, minZoom, maxZoom);
        viewportZoom == if zoom.Some? then zoom.value else old(viewportZoom)
    {
      var zoom := ZoomOverride(z, parseInt, minZoom, maxZoom);
      if zoom.Some? {
        viewportZoom := zoom.value;
      }
    }

    /** Applies `ft`: both centre coordinates are replaced when `CenterOverride` accepts it. */
    method ApplyFlyToParam(ft: Option<string>, isTruthyNumber: string -> bool)
      requires Valid()
      modifies this`viewportX, this`viewportY
      ensures Valid()
      ensures var c := CenterOverride(ft, isTruthyNumber);
        (viewportX, viewportY) == if c.Some? then (Str(c.value.0), Str(c.value.1)) else old((viewportX, viewportY))
    {
      var center := CenterOverride(ft, isTruthyNumber);
      if center.Some? {
        viewportX := Str(center.value.0);
        viewportY := Str(center.value.1);
      }
    }

    /** Applies `c`: the colour override is replaced when `ColorOverride` accepts it. */
    method ApplyColorParam(c: Option<string>)
      requires Valid()
      modifies this`colorOverride
      ensures Valid()
      ensures var color := ColorOverride(c); colorOverride == if color.Some? then color else old(colorOverride)
    {
      var color := ColorOverride(c);
      if color.Some? {
        colorOverride := color;
      }
    }

    /**
     * `yieldingLoop(count, chunksize, callback, finished)`: `trace` is the
     * sequence of callback and `finished` calls, `chunks` the indices each run
     * of `chunk()` handled. A run that leaves indices over schedules the next
     * run (`setTimeout(chunk, 0)`); here the runs follow one another.
     */
    method YieldingLoop(count: nat, chunksize: int) returns (trace: seq<Event>, chunks: seq<seq<nat>>)
      requires isPreviewMode || chunksize > 0 || count == 0
      ensures |trace| == count + 1 && trace[count] == Finished
      ensures forall k :: 0 <= k < count ==> trace[k] == Callback(k)
      ensures IsRange(Flatten(chunks), count)
      ensures count == 0 ==> chunks == [[]]
      ensures count > 0 ==> FullChunks(chunks, count, if isPreviewMode then count else chunksize as nat)
      ensures isPreviewMode ==> |chunks| == 1
    {
      var size := if isPreviewMode then count else chunksize;
      // chunk() runs once straight away ...
      var i, batch;
      i, batch, trace := RunChunk(0, size, count, []);
      chunks := [batch];
      FlattenSnoc([], batch);
      assert [] + [batch] == chunks;
      // ... and, while indices remain, again through setTimeout(chunk, 0).
      while i < count
        invariant i <= count && |chunks| >= 1
        invariant IsRange(Flatten(chunks), i)
        invariant trace == Calls(Flatten(chunks))
        invariant forall k :: 0 <= k < |chunks| - 1 ==> |chunks[k]| == size
        invariant i < count ==> |chunks[|chunks| - 1]| == size
        invariant count > 0 ==> 1 <= |chunks[|chunks| - 1]| <= size
        invariant count == 0 ==> chunks == [[]]
        invariant isPreviewMode ==> |chunks| == 1 && i == count
        decreases count - i
      {
        ghost var start := i;
        i, batch, trace := RunChunk(i, size, count, trace);
        FlattenSnoc(chunks, batch);
        CallsAppend(Flatten(chunks), batch);
        RangeExtend(Flatten(chunks), batch, start);
        chunks := chunks + [batch];
      }
      trace := trace + [Finished];
      assert IsRange(Flatten(chunks), count);
    }
  }

  /** `init` starts by running `beforeLoad` on a `MapBase` holding its defaults. */
  method InitFromQuery(query: Query, parseInt: string -> Option<int>, isTruthyNumber: string -> bool) returns (m: MapBase)
    ensures fresh(m) && m.Valid()
    ensures m.isPreviewMode <==> Truthy(GetParameterByName(query, "q"))
    ensures m.themeOverride == ThemeOverride(GetParameterByName(query, "theme"))
    ensures m.colorOverride == ColorOverride(GetParameterByName(query, "c"))
    ensures var z := ZoomOverride(GetParameterByName(query, "z"), parseInt, 4, 7);
      m.viewportZoom == if z.Some? then z.value else 4
    ensures var c := CenterOverride(GetParameterByName(query, "ft"), isTruthyNumber);
      (m.viewportX, m.viewportY) == if c.Some? then (Str(c.value.0), Str(c.value.1)) else (Num(-24), Num(24))
  {
    m := new MapBase();
    m.BeforeLoad(query, parseInt, isTruthyNumber);
  }
}
