/** A simple qubit object: its parameters plus the lazily built drawing.
    `layout` and `library` start absent, `draw` fills both, and the export
    and inspection operations draw only when their cache slot is empty. A
    drawn cell or library is never empty, so its truth value in the guards
    is its presence. */
module QubitInstance {
  import opened Wrappers
  import opened Parameters
  import opened Geometry
  import opened Drawing

  datatype Instance = Instance(params: Qubit, layout: Option<Cell>, library: Option<Library>) {

    /** Nothing drawn yet, or both slots hold the drawing of the current
        parameters. */
    predicate Consistent() {
      || (layout.None? && library.None?)
      || (layout == Some(Circuit(params)) && library == Some(DrawLibrary(params)))
    }

    /** `draw`: builds a fresh library and top cell and caches both,
        replacing whatever was cached before; the parameters are untouched. */
    method Draw() returns (next: Instance, cell: Cell)
      ensures next.params == params
      ensures next.layout == Some(cell) && next.library.Some? && next.Consistent()
      ensures cell.name == CircuitName && cell in next.library.value.cells
      ensures Flatten(cell) == Primitives(params)
    {
      var lib := DrawLibrary(params);
      cell := lib.cells[0];
      next := this.(layout := Some(cell), library := Some(lib));
    }

    /** `to_gds`: draws only when no library is cached, then writes the
        library. */
    method ToGds() returns (next: Instance, written: Library)
      ensures next.params == params && next.library == Some(written)
      ensures library.Some? ==> next == this
      ensures library.None? ==> next.Consistent() && written == DrawLibrary(params)
      ensures Consistent() ==> next.Consistent()
    {
      next := this;
      if library.None? {
        var drawn;
        next, drawn := next.Draw();
      }
      written := next.library.value;
    }

    /** `to_svg`: draws only when no layout is cached, then writes the top
        cell. */
    method ToSvg() returns (next: Instance, written: Cell)
      ensures next.params == params && next.layout == Some(written)
      ensures layout.Some? ==> next == this
      ensures layout.None? ==> next.Consistent() && Flatten(written) == Primitives(params)
      ensures Consistent() ==> next.Consistent()
    {
      next := this;
      if layout.None? {
        var drawn;
        next, drawn := next.Draw();
      }
      written := next.layout.value;
    }

    /** `get_polygonsets`: draws only when no layout is cached, then returns
        the top cell's primitives with references resolved. A cached layout
        is used as is, even if the parameters have changed since it was
        drawn. */
    method GetPolygonsets() returns (next: Instance, shapes: seq<Shape>)
      ensures next.params == params && next.layout.Some?
      ensures layout.Some? ==> next == this && shapes == Flatten(layout.value)
      ensures layout.None? ==> next.Consistent() && shapes == Primitives(params)
      ensures Consistent() ==> next.Consistent() && shapes == Primitives(params)
    {
      next := this;
      if layout.None? {
        var drawn;
        next, drawn := next.Draw();
      }
      shapes := Flatten(next.layout.value);
    }
  }

  /** The constructor: each argument is stored unchanged in the field of the
      same name, and nothing is drawn. */
  function New(
    connection_radius: real, junction_width: real, junction_height: real,
    wire_width: real, wire_height: real, junction_offset: real,
    wire_layer: real, junction_layer: real, connection_layer: real): (s: Instance)
    ensures s.layout.None? && s.library.None? && s.Consistent()
    ensures Field(s.params, "connection_radius") == connection_radius
    ensures Field(s.params, "junction_width") == junction_width
    ensures Field(s.params, "junction_height") == junction_height
    ensures Field(s.params, "wire_width") == wire_width
    ensures Field(s.params, "wire_height") == wire_height
    ensures Field(s.params, "junction_offset") == junction_offset
    ensures Field(s.params, "wire_layer") == wire_layer
    ensures Field(s.params, "junction_layer") == junction_layer
    ensures Field(s.params, "connection_layer") == connection_layer
  {
    Instance(
      Qubit(connection_radius, junction_width, junction_height, wire_width, wire_height,
            junction_offset, wire_layer, junction_layer, connection_layer),
      None, None)
  }
}
