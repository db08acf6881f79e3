/**
 * The part of JavaScript's value model that the annotation engine relies on.
 */
module Js {

  /** A JSON-like JavaScript value. `JUndefined` is what a read past the end
      of an array or of an absent property yields; JSON itself never produces
      it. Numbers are modelled as integers. */
  datatype JValue =
    | JUndefined
    | JNull
    | JBool(b: bool)
    | JNum(n: int)
    | JStr(s: string)
    | JArr(items: seq<JValue>)
    | JObj(props: map<string, JValue>)

  datatype Option<+T> = None | Some(value: T) {
    function GetOr(default: T): T {
      match this
      case Some(v) => v
      case None => default
    }
  }

  /** The outcome of an expression that may throw a TypeError, which happens
      whenever a property is read from `undefined` or `null`. */
  datatype Res<+T> = Ok(value: T) | TypeError

  /** `xs[i]` on a JavaScript array. */
  function At(xs: seq<JValue>, i: nat): JValue {
    if i < |xs| then xs[i] else JUndefined
  }

  /** The whitespace that `String.prototype.trim` removes. */
  predicate IsSpace(c: char) {
    c in {'\U{0020}', '\U{0009}', '\U{000A}', '\U{000D}', '\U{000B}', '\U{000C}', '\U{00A0}',
          '\U{FEFF}', '\U{1680}', '\U{2000}', '\U{2001}', '\U{2002}', '\U{2003}', '\U{2004}',
          '\U{2005}', '\U{2006}', '\U{2007}', '\U{2008}', '\U{2009}', '\U{200A}', '\U{2028}',
          '\U{2029}', '\U{202F}', '\U{205F}', '\U{3000}'}
  }

  /** `!s.trim()`: the string is empty once trimmed. */
  predicate IsBlank(s: string) {
    forall i :: 0 <= i < |s| ==> IsSpace(s[i])
  }

  /** `s.substring(n)` for a non-negative start: clamps past the end. */
  function Substring(s: string, n: nat): string {
    if n >= |s| then "" else s[n..]
  }

  /** JavaScript truthiness (NaN is not modelled). */
  predicate Truthy(v: JValue) {
    match v
    case JUndefined => false
    case JNull => false
    case JBool(b) => b
    case JNum(n) => n != 0
    case JStr(s) => s != ""
    case _ => true
  }

  function DigitChar(d: nat): char
    requires d < 10
  {
    "0123456789"[d]
  }

  /** The decimal digits of a natural number, most significant first. */
  function Digits(n: nat): (r: string)
    ensures |r| >= 1
    ensures forall i :: 0 <= i < |r| ==> '0' <= r[i] <= '9'
    decreases n
  {
    if n < 10 then [DigitChar(n)] else Digits(n / 10) + [DigitChar(n % 10)]
  }

  /** `parts.join(',')`. */
  function CommaJoin(parts: seq<string>): string {
    if parts == [] then ""
    else if |parts| == 1 then parts[0]
    else parts[0] + "," + CommaJoin(parts[1..])
  }

  /** The property name a value becomes when used as an object key
      (`String(v)`): arrays join their elements with ',', writing null and
      undefined elements as empty strings. */
  function KeyText(v: JValue): string
    decreases v
  {
    match v
    case JUndefined => "undefined"
    case JNull => "null"
    case JBool(b) => if b then "true" else "false"
    case JNum(n) => if n < 0 then "-" + Digits(-n) else Digits(n)
    case JStr(s) => s
    case JArr(items) =>
      CommaJoin(seq(|items|, i requires 0 <= i < |items| =>
                  if items[i].JNull? || items[i].JUndefined? then "" else KeyText(items[i])))
    case JObj(_) => "[object Object]"
  }

  /** A number and its decimal string name the same property, so a cache
      keyed by such values cannot tell them apart. */
  lemma NumberKeysAreStrings(n: nat)
    ensures KeyText(JNum(n)) == KeyText(JStr(Digits(n)))
    ensures KeyText(JArr([JNum(n)])) == KeyText(JNum(n))
  {
  }
}
