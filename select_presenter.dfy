/**
 * The select filter presenter (`Dcat\Admin\Grid\Filter\Presenter\Select`):
 * a Select2 configuration map with an overriding merge and a default-only
 * insertion, the options source and how it becomes a list of options, the
 * placeholder, and the CSS class derived from the filter's column.
 */
module SelectPresenter {
  import opened Php

  /**
   * Where the options come from: a closure is called with the filter's
   * value, anything else is used as is.
   */
  datatype Source =
    | Loader(load: Value -> Value)
    | Given(v: Value)

  /** A string source is a URL the options are loaded from remotely, whoever stored it. */
  predicate LoadsRemotely(o: Source) {
    o.Given? && o.v.Str?
  }

  /** `getClass`: the column with every `.` turned into `_`. */
  function GetClass(target: string): (r: string)
    ensures |r| == |target|
    ensures '.' !in r
    ensures forall i :: 0 <= i < |target| && target[i] != '.' ==> r[i] == target[i]
    ensures forall i :: 0 <= i < |target| && target[i] == '.' ==> r[i] == '_'
  {
    Replace(target, '.', '_')
  }

  /** The derived class is empty or "0" exactly when the column is. */
  lemma ClassTruthyIffColumn(c: string)
    ensures TruthyString(GetClass(c)) <==> TruthyString(c)
  {
    if c == "0" {
      assert GetClass(c)[0] == '0';
    }
    if GetClass(c) == "0" {
      assert c[0] == '0';
      assert c == "0";
    }
  }

  // ---------------------------------------------------------------------
  // Default-only configuration

  /** `addDefaultConfig` with an array: each entry applied in order. */
  function WithDefaults(c: map<string, Value>, es: seq<(string, Value)>): (r: map<string, Value>)
    ensures c.Keys <= r.Keys
    // a key already set to a non-null value is never overwritten
    ensures forall k :: Isset(c, k) ==> Isset(r, k) && r[k] == c[k]
  {
    if es == [] then c
    else SetDefault(WithDefaults(c, es[..|es| - 1]), es[|es| - 1].0, es[|es| - 1].1)
  }

  /** The keys of a PHP array are distinct. */
  ghost predicate DistinctKeys(es: seq<(string, Value)>) {
    forall i, j :: 0 <= i < j < |es| ==> es[i].0 != es[j].0
  }

  /** Keys the defaults do not mention are left exactly as they were. */
  lemma {:induction false} DefaultsUntouched(c: map<string, Value>, es: seq<(string, Value)>, k: string)
    requires forall i :: 0 <= i < |es| ==> es[i].0 != k
    ensures k in WithDefaults(c, es) <==> k in c
    ensures k in c ==> WithDefaults(c, es)[k] == c[k]
  {
    if es != [] {
      DefaultsUntouched(c, es[..|es| - 1], k);
    }
  }

  /** An unset or null key named by a default receives that default. */
  lemma {:induction false} DefaultsFill(c: map<string, Value>, es: seq<(string, Value)>, i: nat)
    requires DistinctKeys(es)
    requires i < |es| && !Isset(c, es[i].0)
    ensures es[i].0 in WithDefaults(c, es) && WithDefaults(c, es)[es[i].0] == es[i].1
  {
    var init := es[..|es| - 1];
    if i == |es| - 1 {
      DefaultsUntouched(c, init, es[i].0);
    } else {
      DefaultsFill(c, init, i);
    }
  }

  /** The keys a list of defaults names. */
  function NamedKeys(es: seq<(string, Value)>): set<string> {
    set i | 0 <= i < |es| :: es[i].0
  }

  /** The defaults add exactly the keys they name. */
  lemma {:induction false} DefaultsKeys(c: map<string, Value>, es: seq<(string, Value)>)
    ensures WithDefaults(c, es).Keys == c.Keys + NamedKeys(es)
  {
    if es != [] {
      var init := es[..|es| - 1];
      DefaultsKeys(c, init);
      var all, before := NamedKeys(es), NamedKeys(init);
      forall k | k in all ensures k in before + {es[|es| - 1].0} {
        var i :| 0 <= i < |es| && es[i].0 == k;
        if i < |init| {
          assert init[i] == es[i];
        }
      }
      forall k | k in before ensures k in all {
        var i :| 0 <= i < |init| && init[i].0 == k;
        assert es[i] == init[i];
      }
      assert es[|es| - 1].0 in all;
    }
  }

  // ---------------------------------------------------------------------
  // Options loaded from a model

  /** The ids `model()`'s closure looks up for a filter value; None when it yields no options. */
  function ExtractIds(value: Value, idField: string): (ids: Option<seq<Value>>)
    ensures ids.None? <==> !Truthy(value)
    ensures Truthy(value) && !value.Arr? ==> ids == Some([value])
    ensures Truthy(value) && value.Arr? && !IsList(value.entries) ==> ids == Some([DataGet(value, idField)])
    ensures ids.Some? && value.Arr? ==> 0 < |value.entries| && |ids.value| <= |value.entries|
  {
    if !Truthy(value) then None
    else if value.Arr? then
      if !IsList(value.entries) then Some([DataGet(value, idField)])
      else Some(Column(value.entries, idField))
    else Some([value])
  }

  /** For a list of rows, the ids are exactly the rows' id fields. */
  lemma ListIds(rows: seq<Entry>, idField: string, x: Value)
    requires rows != [] && IsList(rows)
    ensures ExtractIds(Arr(rows), idField).Some?
    ensures x in ExtractIds(Arr(rows), idField).value <==>
      exists i :: 0 <= i < |rows| && Field(rows[i].val, idField) == Some(x)
  {
    ColumnMembers(rows, idField, x);
  }

  /**
   * `model()`'s closure: `find` stands for `$model::find($ids)->pluck(...)->toArray()`,
   * the database lookup, which is only asked about the extracted ids.
   */
  function ModelOptions(value: Value, idField: string, find: seq<Value> -> Value): (r: Value)
    ensures !Truthy(value) ==> r == Arr([])
    ensures Truthy(value) ==> r == find(ExtractIds(value, idField).value)
  {
    match ExtractIds(value, idField)
    case None => Arr([])
    case Some(ids) => find(ids)
  }

  /** The placeholder setting: `['id' => '', 'text' => $text]`. */
  function PlaceholderConfig(text: string): Value {
    Arr([Entry(StrKey("id"), Str("")), Entry(StrKey("text"), Str(text))])
  }

  /** The defaults `buildOptions` adds. */
  function DefaultConfig(text: string): (es: seq<(string, Value)>)
    ensures DistinctKeys(es)
  {
    [("allowClear", Bool(true)), ("placeholder", PlaceholderConfig(text))]
  }

  /** The settings remote loading merges over the configuration. */
  function RemoteConfig(text: string): map<string, Value> {
    map["allowClear" := Bool(true), "placeholder" := PlaceholderConfig(text)]
  }

  class Select {
    /** The filter's column. */
    const column: string
    /** The translated "choose" label used when no placeholder is set. */
    const chooseLabel: string

    /** The cached element class; "" stands for not yet computed. */
    var elementClass: string
    var options: Source
    var config: map<string, Value>
    /** "" stands for no placeholder. */
    var placeholder: string
    var selectAll: bool

    constructor (options: Source, column: string, chooseLabel: string)
      ensures this.options == options && this.column == column && this.chooseLabel == chooseLabel
      ensures elementClass == "" && config == map[] && placeholder == "" && selectAll
    {
      this.options := options;
      this.column := column;
      this.chooseLabel := chooseLabel;
      elementClass := "";
      config := map[];
      placeholder := "";
      selectAll := true;
    }

    /** `config($key, $val)`: sets exactly that key. */
    method Config(key: string, val: Value)
      modifies this`config
      ensures config == old(config)[key := val]
      ensures forall k :: k != key ==> (k in config <==> k in old(config))
      ensures forall k :: k != key && k in config ==> config[k] == old(config)[k]
    {
      config := config[key := val];
    }

    /** `config($array)`: merges, the given keys overriding existing ones. */
    method MergeConfig(m: map<string, Value>)
      modifies this`config
      ensures config == old(config) + m
      ensures config.Keys == old(config).Keys + m.Keys
      ensures forall k :: k in m ==> config[k] == m[k]
      ensures forall k :: k in old(config) && k !in m ==> config[k] == old(config)[k]
    {
      config := config + m;
    }

    method DisableSelectAll()
      modifies this`selectAll
      ensures !selectAll
    {
      selectAll := false;
    }

    /** `addDefaultConfig($key, $value)`: inserts only when the key is unset or null. */
    method AddDefaultConfig(key: string, value: Value)
      modifies this`config
      ensures config == SetDefault(old(config), key, value)
      ensures Isset(old(config), key) ==> config == old(config)
      ensures !Isset(old(config), key) ==> config == old(config)[key := value]
    {
      if !Isset(config, key) {
        config := config[key := value];
      }
    }

    /** `addDefaultConfig($array)`: each entry applied in order. */
    method AddDefaultConfigs(es: seq<(string, Value)>)
      modifies this`config
      ensures config == WithDefaults(old(config), es)
    {
      var i := 0;
      while i < |es|
        invariant 0 <= i <= |es|
        invariant config == WithDefaults(old(config), es[..i])
      {
        AddDefaultConfig(es[i].0, es[i].1);
        assert es[..i + 1][..i] == es[..i];
        i := i + 1;
      }
      assert es[..|es|] == es;
    }

    /** The placeholder shown: the stored one if non-empty, else the "choose" label. */
    function Placeholder(): (r: string)
      reads this
      ensures TruthyString(placeholder) ==> r == placeholder
      ensures !TruthyString(placeholder) ==> r == chooseLabel
      ensures TruthyString(r) || r == chooseLabel
    {
      if TruthyString(placeholder) then placeholder else chooseLabel
    }

    /** `placeholder($text)`: stores the text. */
    method SetPlaceholder(p: string)
      modifies this`placeholder
      ensures placeholder == p
      ensures TruthyString(p) ==> Placeholder() == p
    {
      placeholder := p;
    }

    /** `model()`: fails unless given a model class; otherwise options come from the model's rows. */
    method Model(isModelClass: bool, idField: string, find: seq<Value> -> Value) returns (ok: bool)
      modifies this`options
      ensures ok == isModelClass
      ensures !ok ==> unchanged(this)
      ensures ok ==> options.Loader? && forall v :: options.load(v) == ModelOptions(v, idField, find)
    {
      if !isModelClass {
        return false;
      }
      options := Loader(v => ModelOptions(v, idField, find));
      ok := true;
    }

    /** Resolves the options for the filter's current value and adds the default settings. */
    method BuildOptions(filterValue: Value) returns (r: seq<Entry>)
      modifies this`options, this`config
      ensures old(options).Loader? ==> options.Given? && options.v == old(options).load(filterValue)
      ensures old(options).Given? ==> options.Given? && options.v == old(options).v
      ensures r == if options.Given? && options.v.Arr? then options.v.entries else []
      ensures config == WithDefaults(
        if LoadsRemotely(old(options)) then old(config) + RemoteConfig(Placeholder()) else old(config),
        DefaultConfig(Placeholder()))
      ensures Isset(config, "allowClear") && Isset(config, "placeholder")
      ensures !LoadsRemotely(old(options)) ==> forall k :: Isset(old(config), k) ==> Isset(config, k) && config[k] == old(config)[k]
    {
      ghost var before := config;
      if LoadsRemotely(options) {
        MergeConfig(RemoteConfig(Placeholder()));
      }
      if options.Loader? {
        options := Given(options.load(filterValue));
      }
      ghost var merged := config;
      AddDefaultConfigs(DefaultConfig(Placeholder()));
      var defaults := DefaultConfig(Placeholder());
      if !Isset(merged, "allowClear") {
        DefaultsFill(merged, defaults, 0);
      }
      if !Isset(merged, "placeholder") {
        DefaultsFill(merged, defaults, 1);
      }
      r := if options.Given? && options.v.Arr? then options.v.entries else [];
    }

    /** The element class, computed from the column once and then cached. */
    method GetElementClass() returns (r: string)
      modifies this`elementClass
      ensures r == elementClass
      ensures TruthyString(old(elementClass)) ==> r == old(elementClass)
      ensures !TruthyString(old(elementClass)) ==> r == GetClass(column)
      ensures TruthyString(column) ==> TruthyString(elementClass)
    {
      if !TruthyString(elementClass) {
        elementClass := GetClass(column);
        ClassTruthyIffColumn(column);
      }
      r := elementClass;
    }

    /** The element class as a CSS selector: `.` followed by the class. */
    method GetElementClassSelector() returns (r: string)
      modifies this`elementClass
      ensures r == "." + elementClass
      ensures TruthyString(old(elementClass)) ==> r == "." + old(elementClass)
      ensures !TruthyString(old(elementClass)) ==> r == "." + GetClass(column)
    {
      var c := GetElementClass();
      r := "." + c;
    }
  }
}
