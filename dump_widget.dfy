/**
 * The dump widget (`Dcat\Admin\Widgets\Dump`): shows a value inside a
 * `<pre>` block.  A string that looks like a JSON object or list is decoded
 * first, arrays are stored as their (pretty-printed) JSON encoding, and the
 * block's style carries a maximum width only when one was given.  JSON
 * decoding and encoding are parameters of the widget.
 */
module DumpWidget {
  import opened Php

  /** What `content()` receives: a renderable view (already rendered to its HTML) or a plain value. */
  datatype Content =
    | View(html: string)
    | Data(v: Value)

  /** The padding a widget starts with. */
  const DefaultPadding: string := "10px"

  /** The style every dump block starts with. */
  const PreWrap: string := "white-space:pre-wrap;"

  /** A string starting with `{` and ending with `}`, or starting with `[` and ending with `]`. */
  predicate LooksLikeJson(s: string)
    ensures LooksLikeJson(s) ==> 2 <= |s| && s[0] in "{[" && s[|s| - 1] in "}]"
    ensures LooksLikeJson(s) ==> (s[0] == '{' <==> s[|s| - 1] == '}')
  {
    |s| > 0 && ((s[0] == '{' && s[|s| - 1] == '}') || (s[0] == '[' && s[|s| - 1] == ']'))
  }

  /** `convertJsonToArray($content)`: the decoding of a JSON-looking string, null for anything else. */
  function ConvertJsonToArray(c: Content, decode: string -> Value): (r: Value)
    ensures c.Data? && c.v.Str? && LooksLikeJson(c.v.s) ==> r == decode(c.v.s)
    ensures !(c.Data? && c.v.Str? && LooksLikeJson(c.v.s)) ==> r == Null
  {
    match c
    case Data(Str(s)) => if LooksLikeJson(s) then decode(s) else Null
    case _ => Null
  }

  /** What `content($content)` stores. */
  function Stored(c: Content, decode: string -> Value, encode: Value -> string): (r: Value)
    // a view is stored as its rendering
    ensures c.View? ==> r == Str(c.html)
    // an array is stored as its JSON encoding
    ensures c.Data? && c.v.Arr? ==> r == Str(encode(c.v))
    // a value that is neither an array nor a JSON-looking string is stored unchanged
    ensures c.Data? && !c.v.Arr? && !(c.v.Str? && LooksLikeJson(c.v.s)) ==> r == c.v
    // a JSON-looking string whose decoding is falsy is stored unchanged
    ensures c.Data? && c.v.Str? && LooksLikeJson(c.v.s) && !Truthy(decode(c.v.s)) ==> r == c.v
    // a JSON-looking string whose decoding is an array is stored re-encoded
    ensures c.Data? && c.v.Str? && LooksLikeJson(c.v.s) && decode(c.v.s).Arr? && Truthy(decode(c.v.s))
      ==> r == Str(encode(decode(c.v.s)))
  {
    match c
    case View(html) => Str(html)
    case Data(v) =>
      var decoded := ConvertJsonToArray(c, decode);
      var chosen := if Truthy(decoded) then decoded else v;
      if chosen.Arr? then Str(encode(chosen)) else chosen
  }

  /** Whatever is given, the stored content is never an array: it is printed as it is. */
  lemma {:induction false} StoredIsScalar(c: Content, decode: string -> Value, encode: Value -> string)
    ensures !Stored(c, decode, encode).Arr?
  {
    match c
    case View(_) =>
    case Data(v) =>
      var decoded := ConvertJsonToArray(c, decode);
      if Truthy(decoded) {
        assert decoded != Null;
        assert c.v.Str? && LooksLikeJson(c.v.s);
      }
  }

  /** `padding($padding)`: a truthy argument replaces the current padding, null or falsy keeps it. */
  function NewPadding(current: string, given: Option<string>): (r: string)
    ensures given.Some? && TruthyString(given.value) ==> r == given.value
    ensures !(given.Some? && TruthyString(given.value)) ==> r == current
  {
    match given
    case Some(p) => if TruthyString(p) then p else current
    case None => current
  }

  /** The padding is never set to an empty or "0" value, starting from one that is not. */
  lemma {:induction false} PaddingStaysTruthy(current: string, given: seq<Option<string>>)
    requires TruthyString(current)
    ensures TruthyString(PaddingAfter(current, given))
  {
    if given != [] {
      PaddingStaysTruthy(current, given[..|given| - 1]);
    }
  }

  /** The padding after a sequence of `padding()` calls. */
  function PaddingAfter(current: string, given: seq<Option<string>>): string {
    if given == [] then current else NewPadding(PaddingAfter(current, given[..|given| - 1]), given[|given| - 1])
  }

  /** The `style` attribute `render` defaults to. */
  function Style(maxWidth: Value): (r: string)
    ensures PreWrap <= r
    ensures Truthy(maxWidth) ==> r[|PreWrap|..] == "max-width:" + ToString(maxWidth) + ";"
    ensures !Truthy(maxWidth) ==> r == PreWrap
  {
    PreWrap + (if Truthy(maxWidth) then "max-width:" + ToString(maxWidth) + ";" else "")
  }

  /** The style names a maximum width exactly when a truthy one was set. */
  lemma StyleHasWidthIff(maxWidth: Value)
    ensures |Style(maxWidth)| > |PreWrap| <==> Truthy(maxWidth)
  {
  }

  class Dump {
    var padding: string
    var content: Value
    var maxWidth: Value
    /** `json_decode($s, true)` */
    const decode: string -> Value
    /** `json_encode($v, JSON_PRETTY_PRINT | JSON_UNESCAPED_UNICODE)` */
    const encode: Value -> string

    /** `new Dump($content, $padding)` */
    constructor (c: Content, given: Option<string>, decode: string -> Value, encode: Value -> string)
      ensures this.decode == decode && this.encode == encode
      ensures content == Stored(c, decode, encode)
      ensures padding == NewPadding(DefaultPadding, given)
      ensures maxWidth == Null
    {
      this.decode := decode;
      this.encode := encode;
      content := Str("");
      padding := DefaultPadding;
      maxWidth := Null;
      new;
      SetContent(c);
      SetPadding(given);
    }

    /** `content($content)` */
    method SetContent(c: Content)
      modifies this`content
      ensures content == Stored(c, decode, encode)
    {
      var decoded := ConvertJsonToArray(c, decode);
      match c
      case View(html) =>
        content := Str(html);
      case Data(v) =>
        var chosen := if Truthy(decoded) then decoded else v;
        if chosen.Arr? {
          content := Str(encode(chosen));
        } else {
          content := chosen;
        }
    }

    /** `padding($padding)` */
    method SetPadding(given: Option<string>)
      modifies this`padding
      ensures padding == NewPadding(old(padding), given)
    {
      if given.Some? && TruthyString(given.value) {
        padding := given.value;
      }
    }

    /** `maxWidth($width)` */
    method SetMaxWidth(width: Value)
      modifies this`maxWidth
      ensures maxWidth == width
    {
      maxWidth := width;
    }

    /** The default `style` attribute of the rendered block. */
    function DefaultStyle(): (r: string)
      reads this
      ensures PreWrap <= r
      ensures Truthy(maxWidth) <==> |r| > |PreWrap|
    {
      StyleHasWidthIff(maxWidth);
      Style(maxWidth)
    }
  }
}
