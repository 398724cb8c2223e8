/** What the upload code sees of a picked file, and the drawing surface
    that images are scaled onto. */
module Images {
  /** A picked file: its media type and its size in bytes. */
  datatype File = File(mime: string, size: nat)

  const MiB: nat := 1024 * 1024

  /** Assigning a non-negative length to a canvas side keeps its whole
      part. */
  function Side(x: real): (r: nat)
    requires x >= 0.0
    ensures r as real <= x < r as real + 1.0
  {
    x.Floor
  }

  /** A canvas element: only its two sides matter here. */
  class Canvas {
    var width: nat
    var height: nat

    /** A new canvas has the default 300 by 150 size. */
    constructor()
      ensures width == 300 && height == 150
    {
      width := 300;
      height := 150;
    }

    /** `canvas.width = w; canvas.height = h`. */
    method Resize(w: real, h: real)
      requires w >= 0.0 && h >= 0.0
      modifies this
      ensures width == Side(w) && height == Side(h)
    {
      width := Side(w);
      height := Side(h);
    }
  }
}
