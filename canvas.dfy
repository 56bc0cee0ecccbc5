/**
  The drawing surface the projector writes on (the `drawille` crate's
  `Canvas`), seen only through the calls made on it: each `line` and `text`
  call is appended to a trace. Rasterisation and `frame()` are not modelled.
 */
module CanvasTrace {
  import opened RustNum

  /** One recorded call on the canvas. */
  datatype Call =
    | LineCall(x0: u32, y0: u32, x1: u32, y1: u32)
    | TextCall(x: u32, y: u32, width: u32, text: string)

  /** A canvas value: the calls made on it so far, oldest first. */
  datatype Canvas = Canvas(trace: seq<Call>) {

    /** `canvas.line(x0, y0, x1, y1)`: the earlier calls are kept and the
        line becomes the last one. */
    function Line(x0: u32, y0: u32, x1: u32, y1: u32): (r: Canvas)
      ensures |r.trace| == |trace| + 1 && r.trace[..|trace|] == trace
      ensures r.trace[|trace|] == LineCall(x0, y0, x1, y1)
    {
      Canvas(trace + [LineCall(x0, y0, x1, y1)])
    }

    /** `canvas.text(x, y, width, text)`: the earlier calls are kept and the
        text becomes the last one. */
    function Text(x: u32, y: u32, width: u32, text: string): (r: Canvas)
      ensures |r.trace| == |trace| + 1 && r.trace[..|trace|] == trace
      ensures r.trace[|trace|] == TextCall(x, y, width, text)
    {
      Canvas(trace + [TextCall(x, y, width, text)])
    }
  }
}
