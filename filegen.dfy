/**
 * Turning a language-model response into plain text: `extractTextContent`
 * and the guard and trim of `cleanMarkdownResponse`. `JSON.stringify` and
 * the fence-stripping `replace` are passed in as functions.
 */
module FileGen {
  import opened Wrappers
  import opened Text

  /** The shapes of a response that `extractTextContent` tells apart. */
  datatype Value =
    | Undefined
    | Null
    | Bool(b: bool)
    | Num(n: real)
    | Str(s: string)
      /** An array, with its `content` property when it has one. */
    | Arr(elems: seq<Value>, content: Option<Value>)
      /** Any other object, with its `content` property when it has one. */
    | Obj(content: Option<Value>)

  /** JavaScript truthiness of a value (NaN is not modelled). */
  predicate Truthy(v: Value) {
    match v
    case Undefined => false
    case Null => false
    case Bool(b) => b
    case Num(n) => n != 0.0
    case Str(s) => s != ""
    case Arr(_, _) => true
    case Obj(_) => true
  }

  /** `typeof res.content === "string"` */
  predicate HasStringContent(v: Value) {
    (v.Arr? || v.Obj?) && v.content.Some? && v.content.value.Str?
  }

  /** `Array.isArray(res.content)` */
  predicate HasArrayContent(v: Value) {
    (v.Arr? || v.Obj?) && v.content.Some? && v.content.value.Arr?
  }

  /** The shapes that fall through every test to `JSON.stringify(res)`. */
  predicate IsFallback(v: Value) {
    Truthy(v) && !v.Str? && !HasStringContent(v) && !v.Arr? && !HasArrayContent(v)
  }

  /** `extractTextContent(res)`, with the tests in the source's order. */
  function ExtractText(v: Value, stringify: Value -> string): string
    decreases v
  {
    if !Truthy(v) then ""
    else if v.Str? then Trim(v.s)
    else if HasStringContent(v) then Trim(v.content.value.s)
    else if v.Arr? then
      Trim(Join(seq(|v.elems|, i requires 0 <= i < |v.elems| => ExtractText(v.elems[i], stringify)), "\n"))
    else if HasArrayContent(v) then
      var es := v.content.value.elems;
      Trim(Join(seq(|es|, i requires 0 <= i < |es| => ExtractText(es[i], stringify)), "\n"))
    else stringify(v)
  }

  /** An absent or otherwise falsy response gives the empty string. */
  lemma ExtractFalsy(v: Value, stringify: Value -> string)
    requires !Truthy(v)
    ensures ExtractText(v, stringify) == ""
  {
  }

  /** Every shape but the fallback gives trimmed text; the fallback gives exactly the serialisation. */
  lemma ExtractTrimmed(v: Value, stringify: Value -> string)
    ensures !IsFallback(v) ==> IsTrimmed(ExtractText(v, stringify))
    ensures IsFallback(v) ==> ExtractText(v, stringify) == stringify(v)
  {
  }

  /** For a string the result is the string trimmed, and extracting from that result again changes nothing. */
  lemma ExtractStringIdempotent(s: string, stringify: Value -> string)
    ensures ExtractText(Str(s), stringify) == Trim(s)
    ensures ExtractText(Str(ExtractText(Str(s), stringify)), stringify) == ExtractText(Str(s), stringify)
  {
  }

  /** A string `content` wins over the array test: an array carrying one is reduced to that content. */
  lemma StringContentBeforeArray(es: seq<Value>, s: string, stringify: Value -> string)
    ensures ExtractText(Arr(es, Some(Str(s))), stringify) == Trim(s)
  {
    var v := Arr(es, Some(Str(s)));
    assert Truthy(v) && !v.Str? && HasStringContent(v);
  }

  /** The array test comes before the `content` array test: an array's own elements are used. */
  lemma ArrayBeforeArrayContent(es: seq<Value>, inner: seq<Value>, c: Option<Value>, stringify: Value -> string)
    ensures ExtractText(Arr(es, Some(Arr(inner, c))), stringify) == ExtractText(Arr(es, None), stringify)
  {
  }

  /** An object whose `content` is an array is read like that array. */
  lemma ArrayContentLikeArray(es: seq<Value>, c: Option<Value>, stringify: Value -> string)
    ensures ExtractText(Obj(Some(Arr(es, c))), stringify) == ExtractText(Arr(es, None), stringify)
  {
    var parts := seq(|es|, i requires 0 <= i < |es| => ExtractText(es[i], stringify));
    var v := Obj(Some(Arr(es, c)));
    assert Truthy(v) && !v.Str? && !HasStringContent(v) && !v.Arr? && HasArrayContent(v);
    assert ExtractText(v, stringify) == Trim(Join(parts, "\n"));
    var w := Arr(es, None);
    assert Truthy(w) && !w.Str? && !HasStringContent(w) && w.Arr?;
    assert ExtractText(w, stringify) == Trim(Join(parts, "\n"));
  }

  /** Wrapping a non-fallback response in a one-element array does not change the text. */
  lemma SingletonArray(x: Value, stringify: Value -> string)
    requires !IsFallback(x)
    ensures ExtractText(Arr([x], None), stringify) == ExtractText(x, stringify)
  {
    var parts := seq(1, i requires 0 <= i < 1 => ExtractText([x][i], stringify));
    assert parts == [ExtractText(x, stringify)];
    var w := Arr([x], None);
    assert Truthy(w) && !w.Str? && !HasStringContent(w) && w.Arr?;
    assert ExtractText(w, stringify) == Trim(Join(parts, "\n")) == Trim(ExtractText(x, stringify));
    ExtractTrimmed(x, stringify);
  }

  /** Every character of s is whitespace. */
  predicate AllWhitespace(s: string) {
    forall k :: 0 <= k < |s| ==> IsWhitespace(s[k])
  }

  /** Trimming a whitespace-only string leaves nothing. */
  lemma TrimAllWhitespace(s: string)
    requires AllWhitespace(s)
    ensures Trim(s) == ""
  {
    assert TrimStart(s) == [];
  }

  /** Joining whitespace-only parts with newlines gives whitespace only. */
  lemma {:induction false} JoinAllWhitespace(parts: seq<string>)
    requires forall k :: 0 <= k < |parts| ==> AllWhitespace(parts[k])
    ensures AllWhitespace(Join(parts, "\n"))
  {
    if |parts| > 1 {
      JoinAllWhitespace(parts[1..]);
      var rest := Join(parts[1..], "\n");
      assert Join(parts, "\n") == parts[0] + "\n" + rest;
      forall k | 0 <= k < |Join(parts, "\n")| ensures IsWhitespace(Join(parts, "\n")[k]) {
        if k < |parts[0]| {
          assert Join(parts, "\n")[k] == parts[0][k];
        } else if k > |parts[0]| {
          assert Join(parts, "\n")[k] == rest[k - |parts[0]| - 1];
        }
      }
    }
  }

  /** An array of falsy values, however long, gives the empty string: the newlines the join puts between them are trimmed away. */
  lemma FalsyElementsGiveEmpty(es: seq<Value>, stringify: Value -> string)
    requires forall k :: 0 <= k < |es| ==> !Truthy(es[k])
    ensures ExtractText(Arr(es, None), stringify) == ""
  {
    var parts := seq(|es|, i requires 0 <= i < |es| => ExtractText(es[i], stringify));
    forall k | 0 <= k < |parts| ensures AllWhitespace(parts[k]) {
      assert parts[k] == "";
    }
    JoinAllWhitespace(parts);
    TrimAllWhitespace(Join(parts, "\n"));
  }

  /**
   * `cleanMarkdownResponse(content)` with the fence-stripping `replace`
   * passed in: empty input gives "", any other input gives trimmed text.
   */
  function CleanMarkdownResponse(content: string, replace: string -> string): (r: string)
    ensures content == "" ==> r == ""
    ensures IsTrimmed(r)
  {
    if content == "" then "" else Trim(replace(content))
  }
}
