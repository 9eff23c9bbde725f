/**
 * The file upload form field (`Dcat\Admin\Form\Field\File`): the decision
 * `getValidator` takes over a submitted value (delete flag, file-count limit,
 * required rules), the comma-joined value it renders, the preview records it
 * builds, and the uploader options it sets.
 */
module FileField {
  import opened Php

  /** What `getValidator` does with a submission. */
  datatype Decision =
    | DeleteRequested           // false: the request carries the delete flag
    | CustomValidator           // the field's own validator closure decides
    | ColumnMissing             // false: the input lacks the column
    | TooManyFiles(limit: int, count: nat)  // false, with a "max files" message
    | NotRequired               // false: neither `required` nor `required_if*`
    | Rules(rule: string)       // a validator with this rule for the column

  /** One entry of the uploader's initial preview. */
  datatype Preview = Preview(id: Value, path: string, url: string)

  /** The number of files a submitted value names: array entries, or comma-separated parts, empty ones dropped. */
  function FileCount(v: Value): (n: nat)
    ensures v.Arr? ==> n <= |v.entries|
    ensures !v.Arr? ==> n <= |Split(ToString(v), ',')|
    ensures v == Null || v == Str("") ==> n == 0
  {
    if v.Arr? then CountTruthy(ValuesOf(v.entries)) else CountTruthyStrings(Split(ToString(v), ','))
  }

  /** The `fileNumLimit` option is an integer when it is set. */
  predicate LimitIsInt(options: map<string, Value>) {
    Coalesce(options, "fileNumLimit", Int(1)).Int?
  }

  /** `$this->options['fileNumLimit'] ?? 1` */
  function FileLimit(options: map<string, Value>): (r: int)
    requires LimitIsInt(options)
    ensures !Isset(options, "fileNumLimit") ==> r == 1
    ensures Isset(options, "fileNumLimit") ==> options["fileNumLimit"] == Int(r)
  {
    Coalesce(options, "fileNumLimit", Int(1)).i
  }

  /** A comma-joined list of comma-free names counts exactly its truthy names. */
  lemma {:induction false} FileCountJoined(names: seq<string>)
    requires forall i :: 0 <= i < |names| ==> ',' !in names[i]
    ensures FileCount(Str(Join(names, ','))) == CountTruthyStrings(names)
  {
    if names == [] {
      assert Split("", ',') == [""];
    } else {
      SplitJoin(names, ',');
    }
  }

  /** Empty pieces are skipped: `a,,b` names two files. */
  lemma FileCountEmptyPiece()
    ensures FileCount(Str("a,,b")) == 2
  {
    var names := ["a", "", "b"];
    assert Join(names, ',') == "a,,b";
    FileCountJoined(names);
    assert CountTruthyStrings(names[2..]) == 1;
  }

  /** A "0" piece is skipped too: `a,0,b` names two files. */
  lemma FileCountZeroPiece()
    ensures FileCount(Str("a,0,b")) == 2
  {
    var names := ["a", "0", "b"];
    assert Join(names, ',') == "a,0,b";
    FileCountJoined(names);
    assert CountTruthyStrings(names[2..]) == 1;
  }

  /** `implode(',', ...)` converts each item to a string first. */
  function Strings(vs: seq<Value>): (r: seq<string>)
    ensures |r| == |vs|
    ensures forall i :: 0 <= i < |vs| ==> r[i] == ToString(vs[i])
  {
    seq(|vs|, i requires 0 <= i < |vs| => ToString(vs[i]))
  }

  /** A value formatted as a comma-joined list of file names counts back to the number of files. */
  lemma {:induction false} FormattedCount(names: seq<string>)
    requires forall i :: 0 <= i < |names| ==> TruthyString(names[i]) && ',' !in names[i]
    ensures FileCount(Str(Join(names, ','))) == |names|
  {
    if names == [] {
      assert Split("", ',') == [""];
    } else {
      SplitJoin(names, ',');
      CountAllTruthyStrings(names);
    }
  }

  /** A non-empty list of values none of whose string forms contains a comma. */
  predicate CommaFree(vs: seq<Value>) {
    vs != [] && forall i :: 0 <= i < |vs| ==> ',' !in ToString(vs[i])
  }

  /** The `formData._relation` pair `[relation, key]`. */
  function RelationPair(relation: Value, key: Value): Value {
    Arr([Entry(IntKey(0), relation), Entry(IntKey(1), key)])
  }

  /** The preview of one stored value: its id, its file name and its URL. */
  function PreviewOf(v: Value, objectUrl: Value -> string): (p: Preview)
    ensures p.id == v && p.url == objectUrl(v)
    ensures p.path == Basename(ToString(v)) && '/' !in p.path
  {
    Preview(v, Basename(ToString(v)), objectUrl(v))
  }

  class File {
    const column: string
    var options: map<string, Value>
    var value: Value
    var defaultValue: Value

    /** The options start as the uploader's defaults. */
    constructor (column: string, options: map<string, Value>)
      ensures this.column == column && this.options == options
      ensures value == Null && defaultValue == Null
    {
      this.column := column;
      this.options := options;
      value := Null;
      defaultValue := Null;
    }

    /**
     * `getValidator($input)`. The request's delete flag, the field's own
     * validator, `hasRule('required')` and `getRule('required_if*')` are
     * given; an empty `requiredIf` stands for no such rule.
     */
    function GetValidator(input: Value, deleteFlag: bool, hasValidator: bool, hasRequired: bool, requiredIf: string): (d: Decision)
      reads this
      requires LimitIsInt(options)
      ensures deleteFlag ==> d == DeleteRequested
      ensures d.DeleteRequested? <==> deleteFlag
      ensures d.CustomValidator? <==> !deleteFlag && hasValidator
      ensures d.ColumnMissing? <==> !deleteFlag && !hasValidator && !DataHas(input, column)
      ensures d.TooManyFiles? <==>
        && !deleteFlag && !hasValidator && DataHas(input, column)
        && FileCount(DataGet(input, column)) > FileLimit(options)
      ensures d.TooManyFiles? ==>
        d.count > d.limit && d.limit == FileLimit(options) && d.count == FileCount(DataGet(input, column))
      ensures d.NotRequired? <==>
        && !deleteFlag && !hasValidator && DataHas(input, column)
        && FileCount(DataGet(input, column)) <= FileLimit(options)
        && !hasRequired && !TruthyString(requiredIf)
      ensures d.Rules? <==>
        && !deleteFlag && !hasValidator && DataHas(input, column)
        && FileCount(DataGet(input, column)) <= FileLimit(options)
        && (hasRequired || TruthyString(requiredIf))
      ensures d.Rules? ==> d.rule == if hasRequired then "required" else requiredIf
    {
      if deleteFlag then DeleteRequested
      else if hasValidator then CustomValidator
      else if !DataHas(input, column) then ColumnMissing
      else
        var count := FileCount(DataGet(input, column));
        if FileLimit(options) < count then TooManyFiles(FileLimit(options), count)
        else if !hasRequired && !TruthyString(requiredIf) then NotRequired
        else Rules(if hasRequired then "required" else requiredIf)
    }

    /** `setRelation`: records `[relation, key]` under `formData._relation`; fails if `formData` is a scalar. */
    method SetRelation(relation: Value, key: Value) returns (ok: bool)
      modifies this`options
      ensures var fd := Coalesce(old(options), "formData", Null);
        ok <==> fd == Null || fd == Bool(false) || fd.Arr?
      ensures !ok ==> options == old(options)
      ensures ok ==>
        var fd := Coalesce(old(options), "formData", Null);
        var entries := if fd.Arr? then fd.entries else [];
        options == old(options)["formData" := Arr(Put(entries, StrKey("_relation"), RelationPair(relation, key)))]
      ensures ok ==>
        && "formData" in options && options["formData"].Arr?
        && Lookup(options["formData"].entries, StrKey("_relation")) == Some(RelationPair(relation, key))
    {
      var fd := Coalesce(options, "formData", Null);
      if fd == Null || fd == Bool(false) || fd.Arr? {
        var entries := if fd.Arr? then fd.entries else [];
        options := options["formData" := Arr(Put(entries, StrKey("_relation"), RelationPair(relation, key)))];
        ok := true;
      } else {
        ok := false;
      }
    }

    /** `disable($value)` */
    method Disable(v: bool)
      modifies this`options
      ensures options == old(options)["disabled" := Bool(v)]
    {
      options := options["disabled" := Bool(v)];
    }

    /** `forceOptions`: a single file at most; other options unchanged. */
    method ForceOptions()
      modifies this`options
      ensures options == old(options)["fileNumLimit" := Int(1)]
      ensures LimitIsInt(options) && FileLimit(options) == 1
    {
      options := options["fileNumLimit" := Int(1)];
    }

    /**
     * `formatValue`: a set value becomes the comma-join of its array form
     * (`toArray` stands for `Helper::array`); else an array default is joined.
     */
    method FormatValue(toArray: Value -> seq<Value>)
      modifies this`value, this`defaultValue
      ensures old(value) != Null ==>
        && value == Str(Join(Strings(toArray(old(value))), ','))
        && defaultValue == old(defaultValue)
      ensures old(value) == Null && old(defaultValue).Arr? ==>
        && value == Null
        && defaultValue == Str(Join(Strings(ValuesOf(old(defaultValue).entries)), ','))
      ensures old(value) == Null && !old(defaultValue).Arr? ==>
        value == old(value) && defaultValue == old(defaultValue)
      ensures old(value) != Null && CommaFree(toArray(old(value))) ==>
        Split(value.s, ',') == Strings(toArray(old(value)))
    {
      if value != Null {
        var parts := Strings(toArray(value));
        if CommaFree(toArray(value)) {
          SplitJoin(parts, ',');
        }
        value := Str(Join(parts, ','));
      } else if defaultValue.Arr? {
        defaultValue := Str(Join(Strings(ValuesOf(defaultValue.entries)), ','));
      }
    }

    /**
     * `initialPreviewConfig`: one record per value, in order. `values` is
     * `Helper::array($this->value())` and `objectUrl` the storage URL.
     */
    method InitialPreviewConfig(values: seq<Value>, objectUrl: Value -> string) returns (previews: seq<Preview>)
      ensures |previews| == |values|
      ensures forall i :: 0 <= i < |values| ==> previews[i] == PreviewOf(values[i], objectUrl)
    {
      previews := [];
      var i := 0;
      while i < |values|
        invariant 0 <= i <= |values|
        invariant |previews| == i
        invariant forall j :: 0 <= j < i ==> previews[j] == PreviewOf(values[j], objectUrl)
      {
        var p := PreviewOf(values[i], objectUrl);
        previews := previews + [p];
        i := i + 1;
      }
    }

    /** The option changes and template flags of `render`. */
    method Render(toArray: Value -> seq<Value>) returns (fileType: string, showUploadBtn: bool)
      modifies this`options, this`value, this`defaultValue
      ensures options == old(options)["fileNumLimit" := Int(1)]
      ensures fileType == if Truthy(Coalesce(options, "isImage", Null)) then "" else "file"
      ensures showUploadBtn <==> !Truthy(Coalesce(options, "autoUpload", Bool(false)))
      ensures old(value) != Null ==>
        && value == Str(Join(Strings(toArray(old(value))), ','))
        && defaultValue == old(defaultValue)
      ensures old(value) == Null && old(defaultValue).Arr? ==>
        && value == Null
        && defaultValue == Str(Join(Strings(ValuesOf(old(defaultValue).entries)), ','))
      ensures old(value) == Null && !old(defaultValue).Arr? ==>
        value == old(value) && defaultValue == old(defaultValue)
    {
      ForceOptions();
      FormatValue(toArray);
      fileType := if Truthy(Coalesce(options, "isImage", Null)) then "" else "file";
      showUploadBtn := !Truthy(Coalesce(options, "autoUpload", Bool(false)));
    }
  }
}
