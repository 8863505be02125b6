/** Shared vocabulary of the visibility and reveal layer: optional values,
    the animated style properties, JavaScript's Math helpers on exact reals,
    and the document as a lookup from element id to its vertical offset. */
module Common {

  datatype Option<T> = None | Some(value: T) {
    function GetOr(default: T): T {
      match this
      case Some(v) => v
      case None => default
    }
  }

  /** The style properties framer-motion animates in this site. */
  datatype StyleKey = X | Y | Opacity | Scale | Rotate

  /** The value of a property when an element sits at rest: no offset,
      fully opaque, natural size, no rotation. */
  function NeutralValue(k: StyleKey): real {
    match k
    case Opacity => 1.0
    case Scale => 1.0
    case _ => 0.0
  }

  function Min(a: real, b: real): (r: real)
    ensures r <= a && r <= b && (r == a || r == b)
  {
    if a <= b then a else b
  }

  function Max(a: real, b: real): (r: real)
    ensures r >= a && r >= b && (r == a || r == b)
  {
    if a >= b then a else b
  }

  function Abs(a: real): (r: real)
    ensures r >= 0.0 && (r == a || r == -a)
  {
    if a < 0.0 then -a else a
  }

  /** The page as the scroll helpers see it: each element id mapped to
      the element's `offsetTop`. */
  type Document = map<string, real>

  /** `document.getElementById`: the empty id never names an element. */
  function GetElementById(doc: Document, id: string): (r: Option<real>)
    ensures r.Some? <==> id != "" && id in doc
    ensures r.Some? ==> r.value == doc[id]
  {
    if id != "" && id in doc then Some(doc[id]) else None
  }
}
