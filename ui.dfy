/**
 * The page as the network diagnostics see it: a map from element id to the
 * element's value, visibility, CSS classes and inner HTML. Each jQuery call
 * the diagnostics make is one pure operation on that map; like jQuery on an
 * empty selection, an operation on an element the page does not have changes
 * nothing.
 */
module Ui {

  /** Which of the two per-region test rows an element belongs to. */
  datatype Test = Latency | Connectivity

  /**
   * The part of a row: `Value` is the hidden input `#<test>-<region>`, the
   * others are `#<test>-<region>-success`, `-pending`, `-error` and `-text`.
   */
  datatype Part = Value | SuccessIcon | PendingIcon | ErrorIcon | Text

  datatype ElementId =
    | RegionElement(test: Test, region: string, part: Part)
    | NetworkTestButton
    | NetworkNextButton

  datatype Element = Element(value: string, shown: bool, classes: set<string>, html: string)

  type Dom = map<ElementId, Element>

  const TextSuccess := "text-success"
  const TextWarning := "text-warning"

  /** `$(id).show()` */
  function Shown(dom: Dom, id: ElementId): Dom
  {
    if id in dom then dom[id := dom[id].(shown := true)] else dom
  }

  /** `$(id).hide()` */
  function Hidden(dom: Dom, id: ElementId): Dom
  {
    if id in dom then dom[id := dom[id].(shown := false)] else dom
  }

  /** `$(id).val(v)` */
  function WithValue(dom: Dom, id: ElementId, v: string): Dom
  {
    if id in dom then dom[id := dom[id].(value := v)] else dom
  }

  /** `$(id).html(h)` */
  function WithHtml(dom: Dom, id: ElementId, h: string): Dom
  {
    if id in dom then dom[id := dom[id].(html := h)] else dom
  }

  /** `$(id).addClass(c)` */
  function WithClass(dom: Dom, id: ElementId, c: string): Dom
  {
    if id in dom then dom[id := dom[id].(classes := dom[id].classes + {c})] else dom
  }

  /** `$(id).removeClass(c)` */
  function WithoutClass(dom: Dom, id: ElementId, c: string): Dom
  {
    if id in dom then dom[id := dom[id].(classes := dom[id].classes - {c})] else dom
  }

  /** The three calls that classify an indicator: remove both classes, then add `c`. */
  function Reclassed(dom: Dom, id: ElementId, c: string): Dom
    requires c == TextSuccess || c == TextWarning
  {
    WithClass(WithoutClass(WithoutClass(dom, id, TextSuccess), id, TextWarning), id, c)
  }

  /** The class set an indicator ends with after `Reclassed`. */
  function Reclass(classes: set<string>, c: string): (r: set<string>)
    requires c == TextSuccess || c == TextWarning
    ensures c in r
    ensures (TextSuccess in r) != (TextWarning in r)
    ensures r - {TextSuccess, TextWarning} == classes - {TextSuccess, TextWarning}
  {
    classes - {TextSuccess, TextWarning} + {c}
  }

  function Digit(d: nat): char
    requires d < 10
  {
    "0123456789"[d]
  }

  /** How JavaScript renders a whole number of milliseconds. */
  function NatToString(n: nat): (s: string)
    ensures |s| > 0
    ensures forall i :: 0 <= i < |s| ==> '0' <= s[i] <= '9'
  {
    if n < 10 then [Digit(n)] else NatToString(n / 10) + [Digit(n % 10)]
  }
}
