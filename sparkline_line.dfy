/**
 * The line sparkline widget (`Dcat\Admin\Widgets\Sparkline\Line`): an
 * options map for the jQuery sparkline plugin, filled from a palette of
 * colour pairs.  Every chained setter of the widget writes one option, and
 * the width and radius are defaults that never overwrite a value already
 * set.
 */
module SparklineLine {
  import opened Php

  /** The entries of the default palette the widget offers a method for. */
  datatype Swatch = Primary | Green | Purple | Red | Custom | Tear | Blue

  /** A palette entry: the solid colour (`$color[0]`) and its translucent variant (`$color[1]`). */
  datatype ColorPair = ColorPair(solid: string, translucent: string)

  /** The options that always receive the solid colour. */
  const SolidKeys: set<string> :=
    {"lineColor", "highlightLineColor", "minSpotColor", "maxSpotColor", "spotColor"}

  /** Every option a colour fill may write. */
  const Touched: set<string> :=
    SolidKeys + {"fillColor", "highlightSpotColor", "lineWidth", "spotRadius"}

  /** The value option `k` holds after `fillColors($color, $opaque)`, with `solidFill` for `$opaque`. */
  function FilledValue(o: map<string, Value>, c: ColorPair, solidFill: bool, k: string): Value {
    if k in SolidKeys then Str(c.solid)
    else if k == "fillColor" then Str(if solidFill then c.solid else c.translucent)
    else if k == "highlightSpotColor" then Str("#fff")
    else if k == "lineWidth" then (if Isset(o, k) then o[k] else Int(2))
    else if k == "spotRadius" then (if Isset(o, k) then o[k] else Int(3))
    else if k in o then o[k]
    else Null
  }

  /** The options after `fillColors($color, $opaque)` with `solidFill` for `$opaque`. */
  function Filled(o: map<string, Value>, c: ColorPair, solidFill: bool): (r: map<string, Value>)
    ensures r.Keys == o.Keys + Touched
    ensures forall k :: k in SolidKeys ==> r[k] == Str(c.solid)
    ensures r["highlightSpotColor"] == Str("#fff")
    ensures r["fillColor"] == Str(if solidFill then c.solid else c.translucent)
    ensures r["lineWidth"] == (if Isset(o, "lineWidth") then o["lineWidth"] else Int(2))
    ensures r["spotRadius"] == (if Isset(o, "spotRadius") then o["spotRadius"] else Int(3))
    ensures forall k :: k in o && k !in Touched ==> r[k] == o[k]
  {
    map k | k in o.Keys + Touched :: FilledValue(o, c, solidFill, k)
  }

  /** The options after the colour setters of `fillColors`, in chain order. */
  function Colored(o: map<string, Value>, c: ColorPair, solidFill: bool): map<string, Value> {
    o["lineColor" := Str(c.solid)]
     ["fillColor" := Str(if solidFill then c.solid else c.translucent)]
     ["highlightSpotColor" := Str("#fff")]
     ["highlightLineColor" := Str(c.solid)]
     ["minSpotColor" := Str(c.solid)]
     ["maxSpotColor" := Str(c.solid)]
     ["spotColor" := Str(c.solid)]
  }

  /** The setter chain followed by the two defaults, as one map. */
  function Chained(o: map<string, Value>, c: ColorPair, solidFill: bool): map<string, Value> {
    SetDefault(SetDefault(Colored(o, c, solidFill), "lineWidth", Int(2)), "spotRadius", Int(3))
  }

  /** The colour setters give option `k` the value `FilledValue` names, and leave the width and radius alone. */
  lemma {:induction false} ColoredAt(o: map<string, Value>, c: ColorPair, solidFill: bool, k: string)
    requires k != "lineWidth" && k != "spotRadius"
    ensures k in Colored(o, c, solidFill) <==> k in o.Keys + Touched
    ensures k in Colored(o, c, solidFill) ==> Colored(o, c, solidFill)[k] == FilledValue(o, c, solidFill, k)
  {
    if k in SolidKeys || k == "fillColor" || k == "highlightSpotColor" {
    } else {
      assert k !in Touched;
    }
  }

  /** The chain gives option `k` the value `FilledValue` names. */
  lemma {:induction false} ChainedAt(o: map<string, Value>, c: ColorPair, solidFill: bool, k: string)
    ensures k in Chained(o, c, solidFill) <==> k in o.Keys + Touched
    ensures k in Chained(o, c, solidFill) ==> Chained(o, c, solidFill)[k] == FilledValue(o, c, solidFill, k)
  {
    var colored := Colored(o, c, solidFill);
    var widened := SetDefault(colored, "lineWidth", Int(2));
    assert Isset(colored, "lineWidth") == Isset(o, "lineWidth");
    assert Isset(widened, "spotRadius") == Isset(o, "spotRadius");
    if k != "spotRadius" && k != "lineWidth" {
      ColoredAt(o, c, solidFill, k);
    }
  }

  /** The setter chain followed by the two defaults is exactly `Filled`. */
  lemma {:induction false} ChainIsFilled(o: map<string, Value>, c: ColorPair, solidFill: bool)
    ensures Chained(o, c, solidFill) == Filled(o, c, solidFill)
  {
    var a := Chained(o, c, solidFill);
    var b := Filled(o, c, solidFill);
    forall k ensures k in a <==> k in b {
      ChainedAt(o, c, solidFill, k);
    }
    forall k | k in a ensures a[k] == b[k] {
      ChainedAt(o, c, solidFill, k);
    }
    assert a.Keys == b.Keys;
  }

  /** After a fill, every colour option and both numeric defaults are set. */
  lemma FilledSetsAll(o: map<string, Value>, c: ColorPair, solidFill: bool)
    ensures forall k :: k in Touched ==> Isset(Filled(o, c, solidFill), k)
  {
    var r := Filled(o, c, solidFill);
    forall k | k in Touched ensures Isset(r, k) {
      if k in SolidKeys {
        assert r[k] == Str(c.solid);
      } else if k == "lineWidth" {
        assert r[k] != Null;
      } else if k == "spotRadius" {
        assert r[k] != Null;
      }
    }
  }

  /**
   * A second fill replaces every colour of the first and keeps the width
   * and radius the first one settled, so only the last fill is visible.
   */
  lemma {:induction false} FillOverridesFill(o: map<string, Value>, c1: ColorPair, p1: bool, c2: ColorPair, p2: bool)
    ensures Filled(Filled(o, c1, p1), c2, p2) == Filled(o, c2, p2)
  {
    var once := Filled(o, c1, p1);
    FilledSetsAll(o, c1, p1);
    forall k | k in once.Keys + Touched
      ensures FilledValue(once, c2, p2, k) == FilledValue(o, c2, p2, k)
    {
      if k == "lineWidth" || k == "spotRadius" {
      } else if k !in Touched {
        assert once[k] == o[k];
      }
    }
  }

  /** Filling twice with the same colours changes nothing more. */
  lemma FillIdempotent(o: map<string, Value>, c: ColorPair, solidFill: bool)
    ensures Filled(Filled(o, c, solidFill), c, solidFill) == Filled(o, c, solidFill)
  {
    FillOverridesFill(o, c, solidFill, c, solidFill);
  }

  /** The options `render` hands to the plugin: the primary palette only when no line colour was chosen. */
  function Rendered(o: map<string, Value>, primary: ColorPair): (r: map<string, Value>)
    ensures Isset(o, "lineColor") ==> r == o
    ensures !Isset(o, "lineColor") ==> r == Filled(o, primary, false)
  {
    if Isset(o, "lineColor") then o else Filled(o, primary, false)
  }

  /** Whatever was configured, the rendered chart has a line colour, and a chosen one is kept. */
  lemma RenderedLineColor(o: map<string, Value>, primary: ColorPair)
    ensures Isset(Rendered(o, primary), "lineColor")
    ensures Isset(o, "lineColor") ==> Rendered(o, primary)["lineColor"] == o["lineColor"]
    ensures !Isset(o, "lineColor") ==> Rendered(o, primary)["lineColor"] == Str(primary.solid)
  {
    if !Isset(o, "lineColor") {
      assert "lineColor" in SolidKeys;
    }
  }

  /** Rendering a second time leaves the options as the first render left them. */
  lemma RenderedIdempotent(o: map<string, Value>, primary: ColorPair)
    ensures Rendered(Rendered(o, primary), primary) == Rendered(o, primary)
  {
    RenderedLineColor(o, primary);
  }

  class Line {
    /** The plugin options the chained setters write. */
    var options: map<string, Value>
    /** `Colors::$default`, the shared palette. */
    const palette: Swatch -> ColorPair

    /** A widget whose unseen parent starts it with `options`. */
    constructor (palette: Swatch -> ColorPair, options: map<string, Value>)
      ensures this.palette == palette && this.options == options
    {
      this.palette := palette;
      this.options := options;
    }

    /** A magic setter such as `lineColor($v)`: writes option `key`. */
    method Set(key: string, v: Value)
      modifies this`options
      ensures options == old(options)[key := v]
    {
      options := options[key := v];
    }

    /** `fillColors($color, $opaque)`: the colour setters in chain order, then the two defaults. */
    method FillColors(c: ColorPair, solidFill: bool)
      modifies this`options
      ensures options == Filled(old(options), c, solidFill)
    {
      Set("lineColor", Str(c.solid));
      Set("fillColor", Str(if solidFill then c.solid else c.translucent));
      Set("highlightSpotColor", Str("#fff"));
      Set("highlightLineColor", Str(c.solid));
      Set("minSpotColor", Str(c.solid));
      Set("maxSpotColor", Str(c.solid));
      Set("spotColor", Str(c.solid));
      assert options == Colored(old(options), c, solidFill);
      ghost var colored := options;
      if !Isset(options, "lineWidth") {
        Set("lineWidth", Int(2));
      }
      if !Isset(options, "spotRadius") {
        Set("spotRadius", Int(3));
      }
      assert options == SetDefault(SetDefault(colored, "lineWidth", Int(2)), "spotRadius", Int(3));
      ChainIsFilled(old(options), c, solidFill);
    }

    /** `primary($opaque)` … `blue($opaque)`: fill from the swatch's own palette entry. */
    method ApplySwatch(s: Swatch, solidFill: bool)
      modifies this`options
      ensures options == Filled(old(options), palette(s), solidFill)
    {
      FillColors(palette(s), solidFill);
    }

    /** `fillDefaultColor()`: the primary swatch, translucent fill. */
    method FillDefaultColor()
      modifies this`options
      ensures options == Filled(old(options), palette(Primary), false)
    {
      FillColors(palette(Primary), false);
    }

    /** The option handling of `render()`. */
    method Render()
      modifies this`options
      ensures options == Rendered(old(options), palette(Primary))
    {
      if !Isset(options, "lineColor") {
        FillDefaultColor();
      }
    }
  }
}
