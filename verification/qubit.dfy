/** The nine constructor parameters of a simple qubit and the way the JSON
    form groups them by concern. */
module Parameters {

  /** The parameter record, fields in the constructor's argument order.
      Layers are reals too: the constructor's `int` annotation is not
      enforced, and a fractional layer read from JSON is stored as is. */
  datatype Qubit = Qubit(
    connectionRadius: real,
    junctionWidth: real,
    junctionHeight: real,
    wireWidth: real,
    wireHeight: real,
    junctionOffset: real,
    wireLayer: real,
    junctionLayer: real,
    connectionLayer: real)

  /** The four groups of the JSON form and the keyword names each holds. */
  const Groups: map<string, set<string>> := map[
    "junction" := {"junction_width", "junction_height", "junction_offset"},
    "wire" := {"wire_width", "wire_height"},
    "connection" := {"connection_radius"},
    "layers" := {"junction_layer", "connection_layer", "wire_layer"}]

  /** The constructor's keyword parameters (besides `self`). */
  const ParamNames: set<string> := {
    "connection_radius", "junction_width", "junction_height", "wire_width", "wire_height",
    "junction_offset", "wire_layer", "junction_layer", "connection_layer"}

  /** The field a keyword argument is stored in. */
  function Field(q: Qubit, name: string): real
    requires name in ParamNames
  {
    if name == "connection_radius" then q.connectionRadius
    else if name == "junction_width" then q.junctionWidth
    else if name == "junction_height" then q.junctionHeight
    else if name == "wire_width" then q.wireWidth
    else if name == "wire_height" then q.wireHeight
    else if name == "junction_offset" then q.junctionOffset
    else if name == "wire_layer" then q.wireLayer
    else if name == "junction_layer" then q.junctionLayer
    else q.connectionLayer
  }

  /** The group a keyword name belongs to. */
  function GroupOf(n: string): (g: string)
    requires n in ParamNames
    ensures g in Groups && n in Groups[g]
  {
    if n in Groups["junction"] then "junction"
    else if n in Groups["wire"] then "wire"
    else if n in Groups["connection"] then "connection"
    else "layers"
  }

  /** The groups partition the parameter names: each group's keys are
      parameters, every parameter sits in some group, and no name sits in
      two groups. */
  lemma GroupsPartitionParams()
    ensures forall g :: g in Groups ==> Groups[g] <= ParamNames
    ensures forall n :: n in ParamNames ==> exists g :: g in Groups && n in Groups[g]
    ensures forall g, h :: g in Groups && h in Groups && g != h ==> Groups[g] !! Groups[h]
  {
    forall n | n in ParamNames
      ensures exists g :: g in Groups && n in Groups[g]
    {
      var g := GroupOf(n);
    }
  }

  /** A key of any group is a parameter name. */
  lemma KeyIsParam(g: string, k: string)
    requires g in Groups && k in Groups[g]
    ensures k in ParamNames
  {
  }

  /** A qubit is determined by what its keyword names read back. */
  lemma FieldsDetermine(a: Qubit, b: Qubit)
    requires forall n :: n in ParamNames ==> Field(a, n) == Field(b, n)
    ensures a == b
  {
  }
}
