# Simple qubit layout and parameter codec, in Dafny

This project models the `SimpleQubit` class of a small photomask generator.
The class builds a superconducting qubit test structure: a junction rectangle
with a wire and a circular connection pad on each side. It also round-trips
its nine parameters through JSON, validated against a fixed JSON Schema.

The model has two pure parts and a small stateful part.

- **Parameter codec.** The nine parameters form a `Qubit` record
  (`qubit.dfy`). A JSON document is a `Json` tree. Numbers in the tree are
  exact reals, and booleans are not numbers (`json.dfy`). The schema uses
  three JSON Schema keywords: `type` (section 6.1.1 of JSON Schema Validation,
  draft 2020-12), `required` (section 6.5.3 of the same) and `properties`
  (section 10.3.2.1 of JSON Schema Core, draft 2020-12). These three are
  modelled generically (`schema.dfy`), and the class's schema is a constant
  value (`codec.dfy`).
  - `Serialize` builds the four-group data tree.
  - `FromJson` validates a document, then unpacks its four groups into keyword
    arguments. Like Python's `f(**a, **b, ...)`, a repeated key raises
    `TypeError` (`MergeKwargs`). The keywords are then bound to the
    constructor parameters, and an unknown or missing keyword also raises
    `TypeError` (`Bind`).
  - The result type is `Result<Option<Qubit>, Error>`:
    - `Success(None)`: the schema rejected the document. The source prints a
      message and returns `None`.
    - `Failure(TypeError)`: the constructor call raised.
    - `Success(Some(q))`: a new record was built.
- **Drawing geometry** (`geometry.dfy`, `drawing.dfy`).
  - Shapes are ideal rectangles and disks in exact real arithmetic.
  - A cell holds its own shapes and references to other cells. A reference
    turns by 0 or 180 degrees about the referenced cell's origin, then
    translates.
  - `Flatten` resolves references in the library's order: the cell's own
    shapes first, then each reference in turn.
  - `draw`'s cell hierarchy flattens to five primitives. They are stated
    directly in `ExpectedPrimitives`.
  - The proved laws cover the primitives' layers, kinds, sizes and areas, and
    their connectivity.
  - Connectivity is a graph property. `Joined` says two closed shapes touch
    along more than a point. For two rectangles, they overlap or share an edge
    segment of positive length. For a disk of positive radius and a
    rectangle, the disk's centre lies in the rectangle. For two disks of
    positive radius, their centres are closer than the sum of the radii.
    `Connected` says that every set of shapes that contains the junction and
    is closed under `Joined` contains every shape.
- **Lazy drawing cache** (`instance.dfy`). An `Instance` holds the parameters
  plus optional `layout` and `library` slots.
  - `Draw` fills both slots.
  - `ToGds` draws only when `library` is empty. `ToSvg` and `GetPolygonsets`
    draw only when `layout` is empty.
  - `ToGds`, `ToSvg` and `GetPolygonsets` never redraw while their slot is
    filled. A cached drawing therefore stays in place after the parameters
    change, until `Draw` is called again.

Behaviours of the code worth noting:

- The schema lists required keys but does not forbid others
  (SimpleQubit.py:125). An unknown key at the top level of a document is
  therefore ignored: `from_json` only reads the four groups
  (SimpleQubit.py:177).
- An unknown key inside one of the four groups also passes the schema. The
  keyword construction at SimpleQubit.py:177 then raises `TypeError`; it does
  not return `None`.
- Nothing in SimpleQubit.py enforces the offset bound `(0, junction_width/2]`
  that the tests check (app.py:93-95). The model shows this bound is more
  than enough for the wires to meet the junction. For positive sizes, the
  exact condition is `-wire_width < offset < junction_width`.
- Layers are annotated `int` in the constructor (SimpleQubit.py:12), but the
  schema only demands "number" for them (SimpleQubit.py:118-120). A
  fractional layer therefore validates and is stored as given. That is why
  every field of `Qubit` is a `real`.

## Model

| member | source | states |
|---|---|---|
| Codec.SchemaMeaning | SimpleQubit.py:88-126 | The schema accepts a document exactly when it is an object holding the four groups as objects, each with a number under every one of its keys. Extra keys anywhere are allowed. |
| Codec.Serialize | SimpleQubit.py:139-157 | The serialized tree has exactly the four groups at top level, and each group holds exactly its own keys, all with numbers. |
| Codec.SerializeFields | SimpleQubit.py:139-157 | Every serialized key holds the number stored in the record field of the same name. |
| Codec.SerializeValidates | SimpleQubit.py:88-157 | Every serialized record passes the schema. |
| Codec.MergeSpec | SimpleQubit.py:177 | Unpacking several dictionaries as keyword arguments raises exactly when a key occurs in two of them. Otherwise the keywords are the union of the dictionaries. |
| Codec.Bind | SimpleQubit.py:12-21 | Binding keywords to the constructor succeeds exactly when they are the nine parameter names. Each value is then stored in the field of that name. |
| Codec.FromJson | SimpleQubit.py:165-177 | A record is only ever built from a document the schema accepts. |
| Codec.RejectedIffNonconforming | SimpleQubit.py:172-176 | `from_json` returns None exactly when the schema rejects the document. |
| Codec.Rejections | SimpleQubit.py:88-126 | Each of these yields None: a non-object, a missing group, a group that is not an object, a missing key in a group, or a non-number value under a key. |
| Codec.RaisesIffStrayKey | SimpleQubit.py:172-177 | `from_json` raises exactly when the document passes the schema but some group holds a key outside its own key set. |
| Codec.ExactGroupsConstruct | SimpleQubit.py:165-177 | When every group holds exactly its own keys, a record is built. Each of its fields holds the number found under its key. |
| Codec.RoundTrip | SimpleQubit.py:139-177 | Reading back a serialized record gives a record equal to the original in all nine fields, never None. |
| Codec.UnknownTopLevelKeyIgnored | SimpleQubit.py:88-126 | Adding a top-level key other than the four groups does not change the outcome. |
| Codec.UnknownGroupKeyRaises | SimpleQubit.py:91-123 | An extra key inside a group still passes the schema, but the keyword construction then raises. |
| Parameters.GroupsPartitionParams | SimpleQubit.py:139-157 | The four groups' keys are constructor parameters, every constructor parameter lies in some group, and no key belongs to two groups. |
| Parameters.FieldsDetermine | SimpleQubit.py:12-21 | Two records whose nine named fields agree are equal. |
| Geometry.Place | SimpleQubit.py:48-51 | Placing a shape through a reference keeps its kind, layer, radius and side lengths, and moves a disk's centre with the reference. |
| Drawing.UprightPlacement | SimpleQubit.py:48-49 | The first placement shifts the component to `(off, jh)`. Its pad and wire become the second and third expected primitives. |
| Drawing.TurnedPlacement | SimpleQubit.py:50-51 | The second placement turns the component by 180 degrees about `(jw-off, 0)`. Its pad and wire become the fourth and fifth expected primitives. |
| Drawing.FlattenedCircuit | SimpleQubit.py:35-52 | The drawn top cell flattens to exactly five primitives, in this order: the junction `[0,jw]x[0,jh]`; the pad at `(off, jh+wh)`; the wire `[off, off+ww]x[jh, jh+wh]`; the pad at `(jw-off, -wh)`; the wire with corners `(jw-off, 0)` and `(jw-off-ww, -wh)`. |
| Drawing.LayersUsed | app.py:61-62 | The set of layers in the drawing equals the set of the three configured layers. |
| Drawing.ShapeKinds | app.py:68-77 | Circles lie only on the connection layer, and rectangles only on the junction or wire layer. With distinct layers, a shape is a circle exactly when it lies on the connection layer. |
| Drawing.ShapeDimensions | app.py:79-91 | With distinct layers, the drawing has five primitives. Circles have the configured radius. The junction-layer rectangle has the junction's sides and wire-layer rectangles have the wire's sides, in either orientation. |
| Drawing.AreasPositive | app.py:64-66 | Every primitive has positive area exactly when the radius is positive and all four side lengths are non-zero. |
| Drawing.WiresJoinJunction | app.py:93-95 | With positive sizes, each wire shares an edge segment of positive length with the junction exactly when `-wire_width < offset < junction_width`. |
| Drawing.PadsOnWireEnds | SimpleQubit.py:39-51 | With positive sizes, each pad's centre lies on the outer edge of its wire: the top edge of the upper wire, and the bottom edge of the lower wire. |
| Drawing.ConnectedLayout | app.py:93-101 | With positive sizes and `0 < offset <= junction_width/2`, the five primitives form one connected region. |
| QubitInstance.New | SimpleQubit.py:12-23 | The constructor stores each argument unchanged in the field of that name, and starts with no layout and no library. |
| QubitInstance.Instance.Draw | SimpleQubit.py:25-59 | Drawing leaves the parameters unchanged. It fills both cache slots with a fresh drawing of the current parameters, whatever was cached before. The returned cell is the library's top cell, and it flattens to the expected primitives. |
| QubitInstance.Instance.ToGds | SimpleQubit.py:61-67 | Draws only when no library is cached. Otherwise the instance is left exactly as it was. The library written is the cached one. |
| QubitInstance.Instance.ToSvg | SimpleQubit.py:69-75 | Draws only when no layout is cached. Otherwise the instance is left exactly as it was. The cell written is the cached layout. |
| QubitInstance.Instance.GetPolygonsets | SimpleQubit.py:77-81 | Draws only when no layout is cached. Returns the flattened cached layout, which is even a stale one. From a consistent cache it returns the five expected primitives. |

## Left out

- GDSII and SVG writing (SimpleQubit.py:67, 75) are calls into the layout
  library. `ToGds` and `ToSvg` return the library or cell they would write.
- The layout library's `Round` is a polygon that approximates a circle. It is
  modelled as an ideal disk. Rotations other than 0 and 180 degrees, and
  floating-point rounding, are not modelled: all coordinates are exact reals.
- The boolean union in the test (app.py:98) is replaced by the
  `Joined`/`Connected` graph of touching shapes. `Joined` is sufficient for
  two shapes' union to be one region, but not necessary.
- `json.dumps` and `json.loads` (SimpleQubit.py:158, 190) are treated as the
  identity on the tree. So `from_json_string` is `FromJson` and has no member
  of its own. NaN and infinities, which Python's JSON module accepts, are not
  reals and are not modelled.
- File I/O in `serialize` and `from_json_file` (SimpleQubit.py:159-161,
  204-211) is left out. If the file fails to open, the error handler refers to
  `json_file`, which is then unbound. So a missing file raises instead of
  returning None.
- The messages printed on validation failure (SimpleQubit.py:175) are left
  out. `TypeError` carries no message, and the model does not say which
  offending key Python would name.
- The constructor does not check argument types, so Python can build a record
  from strings or other values. The record here holds reals only.
- Codec.Bind: requires a number under every parameter name it is given,
  because the record holds reals. `from_json` reaches it only after the schema
  has checked exactly this.
- The library's cells are a sequence in creation order, not a dictionary
  keyed by cell name.
- Test helpers using floating-point tolerances and file-existence checks
  (app.py:19-31), and the `__main__` blocks, are outside the model.
- The cache guards (SimpleQubit.py:63, 71, 79) test Python truthiness. The
  model reads them as "slot is empty", assuming that a drawn cell or library
  is always truthy.
