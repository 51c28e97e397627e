/**
 * The default behaviour of a volume data source: a field over 3D space
 * that may answer typed lookups (float, spectrum, vector) and accept typed
 * edits. The base source supports none of them; every typed call reports
 * an error naming the source's class and the operation, and an edit leaves
 * the source as it was.
 */
module VolumeSource {
  import opened Wrappers

  datatype Point = Point(x: real, y: real, z: real)
  datatype Vector = Vector(x: real, y: real, z: real)

  /** A spectrum built from one value, which every sample takes. */
  datatype Spectrum = Spectrum(fill: real)

  datatype BoundingBox = BoundingBox(min: Point, max: Point)

  /** The base source's state: its dynamic class name and its bounding box. */
  datatype DataSource = DataSource(className: string, aabb: BoundingBox)

  datatype ValueKind = FloatKind | SpectrumKind | VectorKind

  datatype Value = FloatValue(f: real) | SpectrumValue(s: Spectrum) | VectorValue(v: Vector)
  {
    function Kind(): ValueKind
    {
      match this
      case FloatValue(_) => FloatKind
      case SpectrumValue(_) => SpectrumKind
      case VectorValue(_) => VectorKind
    }
  }

  datatype Operation = Lookup(kind: ValueKind) | Edit(kind: ValueKind)

  datatype FieldError = NotImplemented(className: string, op: Operation)

  /** What an edit leaves behind: the source's new state and the error, if any. */
  datatype EditOutcome = EditOutcome(source: DataSource, error: Option<FieldError>)

  // ---------------------------------------------------------------------
  // Capability queries
  // ---------------------------------------------------------------------

  function SupportsFloatLookups(src: DataSource): (b: bool)
    ensures !b
  {
    false
  }

  function SupportsSpectrumLookups(src: DataSource): (b: bool)
    ensures !b
  {
    false
  }

  function SupportsVectorLookups(src: DataSource): (b: bool)
    ensures !b
  {
    false
  }

  function SupportsFloatEdits(src: DataSource): (b: bool)
    ensures !b
  {
    false
  }

  function SupportsSpectrumEdits(src: DataSource): (b: bool)
    ensures !b
  {
    false
  }

  function SupportsVectorEdits(src: DataSource): (b: bool)
    ensures !b
  {
    false
  }


  /** The capability the source reports for one operation. */
  function Supports(src: DataSource, op: Operation): (b: bool)
    ensures !b
  {
    match op
    case Lookup(FloatKind) => SupportsFloatLookups(src)
    case Lookup(SpectrumKind) => SupportsSpectrumLookups(src)
    case Lookup(VectorKind) => SupportsVectorLookups(src)
    case Edit(FloatKind) => SupportsFloatEdits(src)
    case Edit(SpectrumKind) => SupportsSpectrumEdits(src)
    case Edit(VectorKind) => SupportsVectorEdits(src)
  }

  // ---------------------------------------------------------------------
  // Error reporting
  // ---------------------------------------------------------------------

  /** The name of the member that reports the error. */
  function OperationName(op: Operation): string
  {
    match op
    case Lookup(FloatKind) => "lookupFloat"
    case Lookup(SpectrumKind) => "lookupSpectrum"
    case Lookup(VectorKind) => "lookupVector"
    case Edit(FloatKind) => "editFloat"
    case Edit(SpectrumKind) => "editSpectrum"
    case Edit(VectorKind) => "editVector"
  }

  const MessageMiddle: string := "': does not implement "
  const MessageEnd: string := "()!"

  /** The logged text: the class name in quotes, then the operation's name. */
  function Message(e: FieldError): (m: string)
    ensures |m| == |e.className| + 1 + |MessageMiddle| + |OperationName(e.op)| + |MessageEnd|
    ensures m[..|e.className| + 1] == ['\''] + e.className
    ensures m[|e.className| + 1..|e.className| + 1 + |MessageMiddle|] == MessageMiddle
    ensures m[|e.className| + 1 + |MessageMiddle|..|m| - |MessageEnd|] == OperationName(e.op)
    ensures m[|m| - |MessageEnd|..] == MessageEnd
  {
    ['\''] + e.className + MessageMiddle + OperationName(e.op) + MessageEnd
  }

  /** In a message, the first quote after the opening one closes the class name. */
  lemma ClosingQuote(e: FieldError, k: nat)
    requires '\'' !in e.className
    requires 1 <= k <= |e.className| + 1
    ensures Message(e)[k] == '\'' <==> k == |e.className| + 1
  {
    if k <= |e.className| {
      assert Message(e)[k] == e.className[k - 1];
    }
  }

  /**
   * The message names both the class and the operation: for class names
   * without a quote character, equal messages come from equal errors.
   */
  lemma MessageIdentifiesError(e1: FieldError, e2: FieldError)
    requires '\'' !in e1.className && '\'' !in e2.className
    requires Message(e1) == Message(e2)
    ensures e1 == e2
  {
    var c1, c2 := e1.className, e2.className;
    var k := if |c1| < |c2| then |c1| + 1 else |c2| + 1;
    ClosingQuote(e1, k);
    ClosingQuote(e2, k);
    assert |c1| == |c2|;
    assert c1 == Message(e1)[1..|c1| + 1] == c2;
  }

  // ---------------------------------------------------------------------
  // Typed lookups and edits
  // ---------------------------------------------------------------------

  function Unsupported(src: DataSource, op: Operation): FieldError
  {
    NotImplemented(src.className, op)
  }

  /**
   * The value the source returns after logging a failed lookup. Logging an
   * error raises, so no caller receives it; the lookups below model that
   * by failing.
   * It is `0`, `Spectrum(0)`, or nothing for a vector.
   */
  function Placeholder(kind: ValueKind): (v: Option<Value>)
    ensures v.None? <==> kind == VectorKind
    ensures v.Some? ==> v.value.Kind() == kind
    ensures v == Some(FloatValue(0.0)) || v == Some(SpectrumValue(Spectrum(0.0))) || v == None
  {
    match kind
    case FloatKind => Some(FloatValue(0.0))
    case SpectrumKind => Some(SpectrumValue(Spectrum(0.0)))
    case VectorKind => None
  }

  function LookupFloat(src: DataSource, p: Point): (r: Result<real, FieldError>)
    ensures r.Success? ==> SupportsFloatLookups(src)
    ensures r.Failure? && r.error == Unsupported(src, Lookup(FloatKind))
  {
    Failure(Unsupported(src, Lookup(FloatKind)))
  }

  function LookupSpectrum(src: DataSource, p: Point): (r: Result<Spectrum, FieldError>)
    ensures r.Success? ==> SupportsSpectrumLookups(src)
    ensures r.Failure? && r.error == Unsupported(src, Lookup(SpectrumKind))
  {
    Failure(Unsupported(src, Lookup(SpectrumKind)))
  }

  function LookupVector(src: DataSource, p: Point): (r: Result<Vector, FieldError>)
    ensures r.Success? ==> SupportsVectorLookups(src)
    ensures r.Failure? && r.error == Unsupported(src, Lookup(VectorKind))
  {
    Failure(Unsupported(src, Lookup(VectorKind)))
  }

  function EditFloat(src: DataSource, p: Point, f: real): (r: EditOutcome)
    ensures r.source == src
    ensures r.error.None? ==> SupportsFloatEdits(src)
    ensures r.error == Some(Unsupported(src, Edit(FloatKind)))
  {
    EditOutcome(src, Some(Unsupported(src, Edit(FloatKind))))
  }

  function EditSpectrum(src: DataSource, p: Point, s: Spectrum): (r: EditOutcome)
    ensures r.source == src
    ensures r.error.None? ==> SupportsSpectrumEdits(src)
    ensures r.error == Some(Unsupported(src, Edit(SpectrumKind)))
  {
    EditOutcome(src, Some(Unsupported(src, Edit(SpectrumKind))))
  }

  function EditVector(src: DataSource, p: Point, v: Vector): (r: EditOutcome)
    ensures r.source == src
    ensures r.error.None? ==> SupportsVectorEdits(src)
    ensures r.error == Some(Unsupported(src, Edit(VectorKind)))
  {
    EditOutcome(src, Some(Unsupported(src, Edit(VectorKind))))
  }

  // ---------------------------------------------------------------------
  // One entry point per direction, dispatching on the value kind
  // ---------------------------------------------------------------------

  /** A lookup of the given kind; it succeeds only where the capability is reported. */
  function LookupValue(src: DataSource, kind: ValueKind, p: Point): (r: Result<Value, FieldError>)
    ensures r.Success? ==> Supports(src, Lookup(kind)) && r.value.Kind() == kind
    ensures r.Failure? ==> r.error == Unsupported(src, Lookup(kind))
  {
    match kind
    case FloatKind =>
      (match LookupFloat(src, p)
       case Success(f) => Success(FloatValue(f))
       case Failure(e) => Failure(e))
    case SpectrumKind =>
      (match LookupSpectrum(src, p)
       case Success(s) => Success(SpectrumValue(s))
       case Failure(e) => Failure(e))
    case VectorKind =>
      (match LookupVector(src, p)
       case Success(v) => Success(VectorValue(v))
       case Failure(e) => Failure(e))
  }

  /** An edit with a value of any kind; without the capability it changes nothing. */
  function EditValue(src: DataSource, p: Point, v: Value): (r: EditOutcome)
    ensures r.error.None? ==> Supports(src, Edit(v.Kind()))
    ensures !Supports(src, Edit(v.Kind())) ==> r.source == src
    ensures r.error.Some? ==> r.error.value == Unsupported(src, Edit(v.Kind()))
  {
    match v
    case FloatValue(f) => EditFloat(src, p, f)
    case SpectrumValue(s) => EditSpectrum(src, p, s)
    case VectorValue(w) => EditVector(src, p, w)
  }
}
