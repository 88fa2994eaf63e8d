/**
 * The browser inputs the components read, passed in as values: the bounding
 * box of an element under the pointer, and the layout box of an element found
 * by id.
 */
module Dom {

  /** The fields of `getBoundingClientRect()` the effects read, in viewport pixels. */
  datatype Rect = Rect(left: real, top: real, width: real, height: real) {

    function CenterX(): real { left + width / 2.0 }

    function CenterY(): real { top + height / 2.0 }

    /** The pointer lies on or inside the box. */
    predicate Contains(clientX: real, clientY: real) {
      left <= clientX <= left + width && top <= clientY <= top + height
    }
  }

  /** The layout box of an element: `offsetTop` and `offsetHeight`. */
  datatype Element = Element(offsetTop: real, offsetHeight: real)

  /**
   * `document.getElementById` as a map from id to element; an id that is not
   * a key is a lookup that returns null.
   */
  type Document = map<string, Element>
}
