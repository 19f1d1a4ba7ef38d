/**
 * The JavaScript values that arrive in a product's flag fields (`isAvailable`,
 * `onPromotion`), their `String(v)` rendering, their truthiness, and the storefront's
 * `parseBoolean`, which src/pages/Shop.jsx, src/pages/ProductPage.jsx and
 * src/pages/dashboard/Products.jsx each define with the same body.
 */
module Js {
  import opened Text

  /** A primitive JavaScript value; `Object` stands for any object. Numbers are integers here. */
  datatype JsValue = Undefined | Null | Bool(b: bool) | Number(n: int) | Str(s: string) | Object

  /** `String(v)`. */
  function ToJsString(v: JsValue): string {
    match v
    case Undefined => "undefined"
    case Null => "null"
    case Bool(b) => if b then "true" else "false"
    case Number(n) => IntToString(n)
    case Str(s) => s
    case Object => "[object Object]"
  }

  /** `!!v`: `undefined`, `null`, `false`, `0` and `""` are falsy, everything else truthy. */
  predicate Truthy(v: JsValue) {
    match v
    case Undefined => false
    case Null => false
    case Bool(b) => b
    case Number(n) => n != 0
    case Str(s) => s != ""
    case Object => true
  }

  /** `parseBoolean(value)`. */
  predicate ParseBoolean(v: JsValue)
    ensures ParseBoolean(v) ==> Truthy(v) || v == Str("")
  {
    !(v == Bool(false) || v == Number(0) || ToLower(ToJsString(v)) == "false" || v == Null || v == Undefined)
  }

  /** A value lower-cases to "false" through `String` only when it is `false` itself or such a string. */
  lemma LowerJsStringFalse(v: JsValue)
    ensures ToLower(ToJsString(v)) == "false" <==> v == Bool(false) || (v.Str? && ToLower(v.s) == "false")
  {
    var t := ToLower(ToJsString(v));
    match v
    case Undefined => assert |t| == 9;
    case Null => assert t[0] == 'n';
    case Bool(b) =>
      if b {
        assert |t| == 4;
      }
    case Number(n) =>
      var r := IntToString(n);
      assert t[0] == LowerChar(r[0]);
      assert t[0] == '-' || IsDigit(t[0]);
    case Str(s) =>
    case Object => assert |t| == 15;
  }

  /**
   * `parseBoolean` is false exactly for `false`, `0`, `null`, `undefined` and the strings
   * that lower-case to "false"; every other value, `""` and `"0"` included, gives true.
   */
  lemma ParseBooleanFalseCases(v: JsValue)
    ensures !ParseBoolean(v) <==>
      v == Bool(false) || v == Number(0) || v == Null || v == Undefined || (v.Str? && ToLower(v.s) == "false")
  {
    LowerJsStringFalse(v);
  }

  /**
   * Raw truthiness and `parseBoolean` disagree on exactly two kinds of value: the empty
   * string (falsy, yet parsed as true) and the strings that read "false" (truthy, yet
   * parsed as false).
   */
  lemma TruthyVersusParseBoolean(v: JsValue)
    ensures Truthy(v) != ParseBoolean(v) <==> v == Str("") || (v.Str? && ToLower(v.s) == "false")
  {
    ParseBooleanFalseCases(v);
    if v.Str? && ToLower(v.s) == "false" {
      assert |v.s| == 5;
    }
  }
}
