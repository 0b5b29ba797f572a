/**
 * The enumerations of the finite-element core that the rest of the model relies on
 * (element class, shape and type, analysis type, plot level, sparse-matrix type,
 * shell formulation) with their integer codes, and the element specification record
 * whose equality compares only class, shape and type.
 */
module FECoreEnum {

  /** General category of an element; `Wire` is the out-of-sequence code 100. */
  datatype ElementClass =
    | InvalidClass | Solid | Shell | Beam | Surface | Truss | Discrete | Elem2D | Edge | Wire

  function ClassCode(c: ElementClass): (r: nat)
    ensures c == Wire <==> r == 100
    ensures c != Wire ==> r < 9
    ensures c == InvalidClass <==> r == 0
  {
    match c
    case InvalidClass => 0
    case Solid => 1
    case Shell => 2
    case Beam => 3
    case Surface => 4
    case Truss => 5
    case Discrete => 6
    case Elem2D => 7
    case Edge => 8
    case Wire => 100
  }

  /** Element shape; `InvalidShape` is the sentinel code 999. */
  datatype ElementShape =
    | Tet4 | Tet10 | Tet15 | Tet20 | Penta6 | Penta15 | Hex8 | Hex20 | Hex27 | Pyra5
    | Quad4 | Quad8 | Quad9 | Tri3 | Tri6 | Tri7 | Tri10 | Truss2 | Line2 | DiscreteShape | InvalidShape

  function ShapeCode(s: ElementShape): (r: nat)
    ensures s == InvalidShape <==> r == 999
    ensures s != InvalidShape ==> r < 20
  {
    match s
    case Tet4 => 0
    case Tet10 => 1
    case Tet15 => 2
    case Tet20 => 3
    case Penta6 => 4
    case Penta15 => 5
    case Hex8 => 6
    case Hex20 => 7
    case Hex27 => 8
    case Pyra5 => 9
    case Quad4 => 10
    case Quad8 => 11
    case Quad9 => 12
    case Tri3 => 13
    case Tri6 => 14
    case Tri7 => 15
    case Tri10 => 16
    case Truss2 => 17
    case Line2 => 18
    case DiscreteShape => 19
    case InvalidShape => 999
  }

  /** The shape with a given code; codes outside 0..19 give the sentinel. */
  function ShapeOfCode(k: nat): ElementShape
  {
    match k
    case 0 => Tet4
    case 1 => Tet10
    case 2 => Tet15
    case 3 => Tet20
    case 4 => Penta6
    case 5 => Penta15
    case 6 => Hex8
    case 7 => Hex20
    case 8 => Hex27
    case 9 => Pyra5
    case 10 => Quad4
    case 11 => Quad8
    case 12 => Quad9
    case 13 => Tri3
    case 14 => Tri6
    case 15 => Tri7
    case 16 => Tri10
    case 17 => Truss2
    case 18 => Line2
    case 19 => DiscreteShape
    case _ => InvalidShape
  }

  /** Element type (shape plus integration rule); `InvalidType` is the sentinel 0xFFFF. */
  datatype ElementType =
    | Hex8G8 | Hex8Ri | Hex8G1 | Tet4G1 | Tet4G4 | Penta6G6 | Tet10G1 | Tet10G4
    | Tet10G8 | Tet10Gl11 | Tet10G4Ri1 | Tet10G8Ri4 | Tet15G4 | Tet15G8 | Tet15G11
    | Tet15G15 | Tet15G15Ri4 | Tet20G15 | Hex20G8 | Hex20G27 | Hex27G27 | Penta15G8
    | Penta15G21 | Pyra5G8 | Quad4G4 | Quad4Ni | Tri3G1 | Tri3G3 | Tri3G7 | Tri3Ni
    | Tri6G3 | Tri6G4 | Tri6G7 | Tri6Mg7 | Tri6Gl7 | Tri6Ni | Tri7G3 | Tri7G4 | Tri7G7
    | Tri7Gl7 | Tri10G7 | Tri10G12 | Quad8G9 | Quad8Ni | Quad9G9 | Quad9Ni
    | ShellQuad4G8 | ShellQuad4G12 | ShellQuad8G18 | ShellQuad8G27 | ShellTri3G6
    | ShellTri3G9 | ShellTri6G14 | ShellTri6G21 | TrussType | DiscreteType | PlaneTri3G1
    | PlaneTri6G3 | PlaneQuad4G4 | PlaneQuad8G9 | PlaneQuad9G9 | Line2G1 | InvalidType

  function TypeCode(t: ElementType): (r: nat)
    ensures t == InvalidType <==> r == 0xFFFF
    ensures t != InvalidType ==> r < 62
  {
    match t
    case Hex8G8 => 0
    case Hex8Ri => 1
    case Hex8G1 => 2
    case Tet4G1 => 3
    case Tet4G4 => 4
    case Penta6G6 => 5
    case Tet10G1 => 6
    case Tet10G4 => 7
    case Tet10G8 => 8
    case Tet10Gl11 => 9
    case Tet10G4Ri1 => 10
    case Tet10G8Ri4 => 11
    case Tet15G4 => 12
    case Tet15G8 => 13
    case Tet15G11 => 14
    case Tet15G15 => 15
    case Tet15G15Ri4 => 16
    case Tet20G15 => 17
    case Hex20G8 => 18
    case Hex20G27 => 19
    case Hex27G27 => 20
    case Penta15G8 => 21
    case Penta15G21 => 22
    case Pyra5G8 => 23
    case Quad4G4 => 24
    case Quad4Ni => 25
    case Tri3G1 => 26
    case Tri3G3 => 27
    case Tri3G7 => 28
    case Tri3Ni => 29
    case Tri6G3 => 30
    case Tri6G4 => 31
    case Tri6G7 => 32
    case Tri6Mg7 => 33
    case Tri6Gl7 => 34
    case Tri6Ni => 35
    case Tri7G3 => 36
    case Tri7G4 => 37
    case Tri7G7 => 38
    case Tri7Gl7 => 39
    case Tri10G7 => 40
    case Tri10G12 => 41
    case Quad8G9 => 42
    case Quad8Ni => 43
    case Quad9G9 => 44
    case Quad9Ni => 45
    case ShellQuad4G8 => 46
    case ShellQuad4G12 => 47
    case ShellQuad8G18 => 48
    case ShellQuad8G27 => 49
    case ShellTri3G6 => 50
    case ShellTri3G9 => 51
    case ShellTri6G14 => 52
    case ShellTri6G21 => 53
    case TrussType => 54
    case DiscreteType => 55
    case PlaneTri3G1 => 56
    case PlaneTri6G3 => 57
    case PlaneQuad4G4 => 58
    case PlaneQuad8G9 => 59
    case PlaneQuad9G9 => 60
    case Line2G1 => 61
    case InvalidType => 0xFFFF
  }

  /**
   * The element type with a given code; codes outside 0..61 give the
   * sentinel. The codes are looked up eight at a time.
   */
  function TypeOfCode(k: nat): (r: ElementType)
    ensures r == InvalidType <==> k >= 62
    ensures k < 62 ==> TypeCode(r) == k
  {
    if k < 8 then TypeOfCodeFrom0(k)
    else if k < 16 then TypeOfCodeFrom8(k)
    else if k < 24 then TypeOfCodeFrom16(k)
    else if k < 32 then TypeOfCodeFrom24(k)
    else if k < 40 then TypeOfCodeFrom32(k)
    else if k < 48 then TypeOfCodeFrom40(k)
    else if k < 56 then TypeOfCodeFrom48(k)
    else if k < 62 then TypeOfCodeFrom56(k)
    else InvalidType
  }

  function TypeOfCodeFrom0(k: nat): (r: ElementType)
    requires 0 <= k < 8
    ensures r != InvalidType && TypeCode(r) == k
  {
    match k
    case 0 => Hex8G8
    case 1 => Hex8Ri
    case 2 => Hex8G1
    case 3 => Tet4G1
    case 4 => Tet4G4
    case 5 => Penta6G6
    case 6 => Tet10G1
    case _ => Tet10G4 // 7
  }

  function TypeOfCodeFrom8(k: nat): (r: ElementType)
    requires 8 <= k < 16
    ensures r != InvalidType && TypeCode(r) == k
  {
    match k
    case 8 => Tet10G8
    case 9 => Tet10Gl11
    case 10 => Tet10G4Ri1
    case 11 => Tet10G8Ri4
    case 12 => Tet15G4
    case 13 => Tet15G8
    case 14 => Tet15G11
    case _ => Tet15G15 // 15
  }

  function TypeOfCodeFrom16(k: nat): (r: ElementType)
    requires 16 <= k < 24
    ensures r != InvalidType && TypeCode(r) == k
  {
    match k
    case 16 => Tet15G15Ri4
    case 17 => Tet20G15
    case 18 => Hex20G8
    case 19 => Hex20G27
    case 20 => Hex27G27
    case 21 => Penta15G8
    case 22 => Penta15G21
    case _ => Pyra5G8 // 23
  }

  function TypeOfCodeFrom24(k: nat): (r: ElementType)
    requires 24 <= k < 32
    ensures r != InvalidType && TypeCode(r) == k
  {
    match k
    case 24 => Quad4G4
    case 25 => Quad4Ni
    case 26 => Tri3G1
    case 27 => Tri3G3
    case 28 => Tri3G7
    case 29 => Tri3Ni
    case 30 => Tri6G3
    case _ => Tri6G4 // 31
  }

  function TypeOfCodeFrom32(k: nat): (r: ElementType)
    requires 32 <= k < 40
    ensures r != InvalidType && TypeCode(r) == k
  {
    match k
    case 32 => Tri6G7
    case 33 => Tri6Mg7
    case 34 => Tri6Gl7
    case 35 => Tri6Ni
    case 36 => Tri7G3
    case 37 => Tri7G4
    case 38 => Tri7G7
    case _ => Tri7Gl7 // 39
  }

  function TypeOfCodeFrom40(k: nat): (r: ElementType)
    requires 40 <= k < 48
    ensures r != InvalidType && TypeCode(r) == k
  {
    match k
    case 40 => Tri10G7
    case 41 => Tri10G12
    case 42 => Quad8G9
    case 43 => Quad8Ni
    case 44 => Quad9G9
    case 45 => Quad9Ni
    case 46 => ShellQuad4G8
    case _ => ShellQuad4G12 // 47
  }

  function TypeOfCodeFrom48(k: nat): (r: ElementType)
    requires 48 <= k < 56
    ensures r != InvalidType && TypeCode(r) == k
  {
    match k
    case 48 => ShellQuad8G18
    case 49 => ShellQuad8G27
    case 50 => ShellTri3G6
    case 51 => ShellTri3G9
    case 52 => ShellTri6G14
    case 53 => ShellTri6G21
    case 54 => TrussType
    case _ => DiscreteType // 55
  }

  function TypeOfCodeFrom56(k: nat): (r: ElementType)
    requires 56 <= k < 62
    ensures r != InvalidType && TypeCode(r) == k
  {
    match k
    case 56 => PlaneTri3G1
    case 57 => PlaneTri6G3
    case 58 => PlaneQuad4G4
    case 59 => PlaneQuad8G9
    case 60 => PlaneQuad9G9
    case _ => Line2G1 // 61
  }

  /** Every ordinary shape code names exactly one shape, and back. */
  lemma ShapeCodeBijective(s: ElementShape, k: nat)
    ensures ShapeOfCode(ShapeCode(s)) == s
    ensures k < 20 ==> ShapeCode(ShapeOfCode(k)) == k
  {
  }

  /** Every ordinary element-type code names exactly one type, and back. */
  lemma TypeCodeBijective(t: ElementType, k: nat)
    ensures TypeOfCode(TypeCode(t)) == t
    ensures k < 62 ==> TypeCode(TypeOfCode(k)) == k
  {
    TypeCodeLeftInverse(t);
  }

  /** Decoding the code of a type gives the type back, checked eight types at a time. */
  lemma TypeCodeLeftInverse(t: ElementType)
    ensures TypeOfCode(TypeCode(t)) == t
  {
    match t
    case Hex8G8 | Hex8Ri | Hex8G1 | Tet4G1 | Tet4G4 | Penta6G6 | Tet10G1 | Tet10G4
      => TypeCodeLeftInverseFrom0(t);
    case Tet10G8 | Tet10Gl11 | Tet10G4Ri1 | Tet10G8Ri4 | Tet15G4 | Tet15G8 | Tet15G11 | Tet15G15
      => TypeCodeLeftInverseFrom8(t);
    case Tet15G15Ri4 | Tet20G15 | Hex20G8 | Hex20G27 | Hex27G27 | Penta15G8 | Penta15G21 | Pyra5G8
      => TypeCodeLeftInverseFrom16(t);
    case Quad4G4 | Quad4Ni | Tri3G1 | Tri3G3 | Tri3G7 | Tri3Ni | Tri6G3 | Tri6G4
      => TypeCodeLeftInverseFrom24(t);
    case Tri6G7 | Tri6Mg7 | Tri6Gl7 | Tri6Ni | Tri7G3 | Tri7G4 | Tri7G7 | Tri7Gl7
      => TypeCodeLeftInverseFrom32(t);
    case Tri10G7 | Tri10G12 | Quad8G9 | Quad8Ni | Quad9G9 | Quad9Ni | ShellQuad4G8 | ShellQuad4G12
      => TypeCodeLeftInverseFrom40(t);
    case ShellQuad8G18 | ShellQuad8G27 | ShellTri3G6 | ShellTri3G9 | ShellTri6G14 | ShellTri6G21 | TrussType | DiscreteType
      => TypeCodeLeftInverseFrom48(t);
    case PlaneTri3G1 | PlaneTri6G3 | PlaneQuad4G4 | PlaneQuad8G9 | PlaneQuad9G9 | Line2G1
      => TypeCodeLeftInverseFrom56(t);
    case InvalidType =>
  }

  lemma TypeCodeLeftInverseFrom0(t: ElementType)
    requires t == Hex8G8 || t == Hex8Ri || t == Hex8G1 || t == Tet4G1 || t == Tet4G4 || t == Penta6G6 || t == Tet10G1 || t == Tet10G4
    ensures TypeOfCode(TypeCode(t)) == t
  {
    match t
    case Hex8G8 => assert TypeOfCode(TypeCode(Hex8G8)) == Hex8G8;
    case Hex8Ri => assert TypeOfCode(TypeCode(Hex8Ri)) == Hex8Ri;
    case Hex8G1 => assert TypeOfCode(TypeCode(Hex8G1)) == Hex8G1;
    case Tet4G1 => assert TypeOfCode(TypeCode(Tet4G1)) == Tet4G1;
    case Tet4G4 => assert TypeOfCode(TypeCode(Tet4G4)) == Tet4G4;
    case Penta6G6 => assert TypeOfCode(TypeCode(Penta6G6)) == Penta6G6;
    case Tet10G1 => assert TypeOfCode(TypeCode(Tet10G1)) == Tet10G1;
    case Tet10G4 => assert TypeOfCode(TypeCode(Tet10G4)) == Tet10G4;
    case _ => assert false;
  }

  lemma TypeCodeLeftInverseFrom8(t: ElementType)
    requires t == Tet10G8 || t == Tet10Gl11 || t == Tet10G4Ri1 || t == Tet10G8Ri4 || t == Tet15G4 || t == Tet15G8 || t == Tet15G11 || t == Tet15G15
    ensures TypeOfCode(TypeCode(t)) == t
  {
    match t
    case Tet10G8 => assert TypeOfCode(TypeCode(Tet10G8)) == Tet10G8;
    case Tet10Gl11 => assert TypeOfCode(TypeCode(Tet10Gl11)) == Tet10Gl11;
    case Tet10G4Ri1 => assert TypeOfCode(TypeCode(Tet10G4Ri1)) == Tet10G4Ri1;
    case Tet10G8Ri4 => assert TypeOfCode(TypeCode(Tet10G8Ri4)) == Tet10G8Ri4;
    case Tet15G4 => assert TypeOfCode(TypeCode(Tet15G4)) == Tet15G4;
    case Tet15G8 => assert TypeOfCode(TypeCode(Tet15G8)) == Tet15G8;
    case Tet15G11 => assert TypeOfCode(TypeCode(Tet15G11)) == Tet15G11;
    case Tet15G15 => assert TypeOfCode(TypeCode(Tet15G15)) == Tet15G15;
    case _ => assert false;
  }

  lemma TypeCodeLeftInverseFrom16(t: ElementType)
    requires t == Tet15G15Ri4 || t == Tet20G15 || t == Hex20G8 || t == Hex20G27 || t == Hex27G27 || t == Penta15G8 || t == Penta15G21 || t == Pyra5G8
    ensures TypeOfCode(TypeCode(t)) == t
  {
    match t
    case Tet15G15Ri4 => assert TypeOfCode(TypeCode(Tet15G15Ri4)) == Tet15G15Ri4;
    case Tet20G15 => assert TypeOfCode(TypeCode(Tet20G15)) == Tet20G15;
    case Hex20G8 => assert TypeOfCode(TypeCode(Hex20G8)) == Hex20G8;
    case Hex20G27 => assert TypeOfCode(TypeCode(Hex20G27)) == Hex20G27;
    case Hex27G27 => assert TypeOfCode(TypeCode(Hex27G27)) == Hex27G27;
    case Penta15G8 => assert TypeOfCode(TypeCode(Penta15G8)) == Penta15G8;
    case Penta15G21 => assert TypeOfCode(TypeCode(Penta15G21)) == Penta15G21;
    case Pyra5G8 => assert TypeOfCode(TypeCode(Pyra5G8)) == Pyra5G8;
    case _ => assert false;
  }

  lemma TypeCodeLeftInverseFrom24(t: ElementType)
    requires t == Quad4G4 || t == Quad4Ni || t == Tri3G1 || t == Tri3G3 || t == Tri3G7 || t == Tri3Ni || t == Tri6G3 || t == Tri6G4
    ensures TypeOfCode(TypeCode(t)) == t
  {
    match t
    case Quad4G4 => assert TypeOfCode(TypeCode(Quad4G4)) == Quad4G4;
    case Quad4Ni => assert TypeOfCode(TypeCode(Quad4Ni)) == Quad4Ni;
    case Tri3G1 => assert TypeOfCode(TypeCode(Tri3G1)) == Tri3G1;
    case Tri3G3 => assert TypeOfCode(TypeCode(Tri3G3)) == Tri3G3;
    case Tri3G7 => assert TypeOfCode(TypeCode(Tri3G7)) == Tri3G7;
    case Tri3Ni => assert TypeOfCode(TypeCode(Tri3Ni)) == Tri3Ni;
    case Tri6G3 => assert TypeOfCode(TypeCode(Tri6G3)) == Tri6G3;
    case Tri6G4 => assert TypeOfCode(TypeCode(Tri6G4)) == Tri6G4;
    case _ => assert false;
  }

  lemma TypeCodeLeftInverseFrom32(t: ElementType)
    requires t == Tri6G7 || t == Tri6Mg7 || t == Tri6Gl7 || t == Tri6Ni || t == Tri7G3 || t == Tri7G4 || t == Tri7G7 || t == Tri7Gl7
    ensures TypeOfCode(TypeCode(t)) == t
  {
    match t
    case Tri6G7 => assert TypeOfCode(TypeCode(Tri6G7)) == Tri6G7;
    case Tri6Mg7 => assert TypeOfCode(TypeCode(Tri6Mg7)) == Tri6Mg7;
    case Tri6Gl7 => assert TypeOfCode(TypeCode(Tri6Gl7)) == Tri6Gl7;
    case Tri6Ni => assert TypeOfCode(TypeCode(Tri6Ni)) == Tri6Ni;
    case Tri7G3 => assert TypeOfCode(TypeCode(Tri7G3)) == Tri7G3;
    case Tri7G4 => assert TypeOfCode(TypeCode(Tri7G4)) == Tri7G4;
    case Tri7G7 => assert TypeOfCode(TypeCode(Tri7G7)) == Tri7G7;
    case Tri7Gl7 => assert TypeOfCode(TypeCode(Tri7Gl7)) == Tri7Gl7;
    case _ => assert false;
  }

  lemma TypeCodeLeftInverseFrom40(t: ElementType)
    requires t == Tri10G7 || t == Tri10G12 || t == Quad8G9 || t == Quad8Ni || t == Quad9G9 || t == Quad9Ni || t == ShellQuad4G8 || t == ShellQuad4G12
    ensures TypeOfCode(TypeCode(t)) == t
  {
    match t
    case Tri10G7 => assert TypeOfCode(TypeCode(Tri10G7)) == Tri10G7;
    case Tri10G12 => assert TypeOfCode(TypeCode(Tri10G12)) == Tri10G12;
    case Quad8G9 => assert TypeOfCode(TypeCode(Quad8G9)) == Quad8G9;
    case Quad8Ni => assert TypeOfCode(TypeCode(Quad8Ni)) == Quad8Ni;
    case Quad9G9 => assert TypeOfCode(TypeCode(Quad9G9)) == Quad9G9;
    case Quad9Ni => assert TypeOfCode(TypeCode(Quad9Ni)) == Quad9Ni;
    case ShellQuad4G8 => assert TypeOfCode(TypeCode(ShellQuad4G8)) == ShellQuad4G8;
    case ShellQuad4G12 => assert TypeOfCode(TypeCode(ShellQuad4G12)) == ShellQuad4G12;
    case _ => assert false;
  }

  lemma TypeCodeLeftInverseFrom48(t: ElementType)
    requires t == ShellQuad8G18 || t == ShellQuad8G27 || t == ShellTri3G6 || t == ShellTri3G9 || t == ShellTri6G14 || t == ShellTri6G21 || t == TrussType || t == DiscreteType
    ensures TypeOfCode(TypeCode(t)) == t
  {
    match t
    case ShellQuad8G18 => assert TypeOfCode(TypeCode(ShellQuad8G18)) == ShellQuad8G18;
    case ShellQuad8G27 => assert TypeOfCode(TypeCode(ShellQuad8G27)) == ShellQuad8G27;
    case ShellTri3G6 => assert TypeOfCode(TypeCode(ShellTri3G6)) == ShellTri3G6;
    case ShellTri3G9 => assert TypeOfCode(TypeCode(ShellTri3G9)) == ShellTri3G9;
    case ShellTri6G14 => assert TypeOfCode(TypeCode(ShellTri6G14)) == ShellTri6G14;
    case ShellTri6G21 => assert TypeOfCode(TypeCode(ShellTri6G21)) == ShellTri6G21;
    case TrussType => assert TypeOfCode(TypeCode(TrussType)) == TrussType;
    case DiscreteType => assert TypeOfCode(TypeCode(DiscreteType)) == DiscreteType;
    case _ => assert false;
  }

  lemma TypeCodeLeftInverseFrom56(t: ElementType)
    requires t == PlaneTri3G1 || t == PlaneTri6G3 || t == PlaneQuad4G4 || t == PlaneQuad8G9 || t == PlaneQuad9G9 || t == Line2G1
    ensures TypeOfCode(TypeCode(t)) == t
  {
    match t
    case PlaneTri3G1 => assert TypeOfCode(TypeCode(PlaneTri3G1)) == PlaneTri3G1;
    case PlaneTri6G3 => assert TypeOfCode(TypeCode(PlaneTri6G3)) == PlaneTri6G3;
    case PlaneQuad4G4 => assert TypeOfCode(TypeCode(PlaneQuad4G4)) == PlaneQuad4G4;
    case PlaneQuad8G9 => assert TypeOfCode(TypeCode(PlaneQuad8G9)) == PlaneQuad8G9;
    case PlaneQuad9G9 => assert TypeOfCode(TypeCode(PlaneQuad9G9)) == PlaneQuad9G9;
    case Line2G1 => assert TypeOfCode(TypeCode(Line2G1)) == Line2G1;
    case _ => assert false;
  }

  /** Shell formulations, coded 0 to 3. */
  datatype ShellFormulation = NewShell | OldShell | EasShell | AnsShell

  function ShellCode(f: ShellFormulation): (r: nat)
    ensures r < 4
    ensures f == NewShell <==> r == 0
  {
    match f
    case NewShell => 0
    case OldShell => 1
    case EasShell => 2
    case AnsShell => 3
  }

  /** Kinds of analysis with their fixed codes. */
  datatype AnalysisType = Static | Dynamic | SteadyState

  function AnalysisCode(a: AnalysisType): (r: nat)
    ensures a == Static <==> r == 0
    ensures a == Dynamic <==> r == 1
    ensures a == SteadyState <==> r == 2
  {
    match a
    case Static => 0
    case Dynamic => 1
    case SteadyState => 2
  }

  /** How often the plot file is written. */
  datatype PlotLevel =
    | PlotNever | PlotMajorIters | PlotMinorIters | PlotMustPoints | PlotFinal
    | PlotAugmentations | PlotStepFinal

  function PlotLevelCode(l: PlotLevel): (r: nat)
    ensures r <= 6
    ensures l == PlotNever <==> r == 0
    ensures l == PlotAugmentations <==> r == 5
    ensures l == PlotStepFinal <==> r == 6
  {
    match l
    case PlotNever => 0
    case PlotMajorIters => 1
    case PlotMinorIters => 2
    case PlotMustPoints => 3
    case PlotFinal => 4
    case PlotAugmentations => 5
    case PlotStepFinal => 6
  }

  /** The plot levels listed by code. */
  const PlotLevels: seq<PlotLevel> := [
    PlotNever, PlotMajorIters, PlotMinorIters, PlotMustPoints, PlotFinal,
    PlotAugmentations, PlotStepFinal
  ]

  /** The plot-level codes are exactly 0..6, one level each. */
  lemma PlotLevelCodeBijective(l: PlotLevel, k: nat)
    ensures |PlotLevels| == 7
    ensures PlotLevels[PlotLevelCode(l)] == l
    ensures k < 7 ==> PlotLevelCode(PlotLevels[k]) == k
  {
  }

  /** Sparse-matrix storage types requested from a linear solver. */
  datatype MatrixType = RealUnsymmetric | RealSymmetric | RealSymmStructure

  function MatrixTypeCode(m: MatrixType): (r: nat)
    ensures r < 3
    ensures m == RealUnsymmetric <==> r == 0
  {
    match m
    case RealUnsymmetric => 0
    case RealSymmetric => 1
    case RealSymmStructure => 2
  }

  /** There are exactly three matrix types, with distinct codes. */
  lemma MatrixTypeExactlyThree(m: MatrixType, n: MatrixType)
    ensures m in {RealUnsymmetric, RealSymmetric, RealSymmStructure}
    ensures MatrixTypeCode(m) == MatrixTypeCode(n) ==> m == n
  {
  }

  /** The element specification used to pick a domain class. */
  datatype ElementSpec = ElementSpec(
    eclass: ElementClass,
    eshape: ElementShape,
    etype: ElementType,
    threeFieldHex: bool,
    threeFieldTet: bool,
    threeFieldShell: bool,
    threeFieldQuad: bool,
    threeFieldTri: bool,
    ut4: bool,
    shellFormulation: int)

  /**
   * The default constructor. It does not assign the quad and tri three-field flags,
   * so those keep whatever the storage held: the model takes them as parameters.
   */
  function DefaultSpec(quadAsFound: bool, triAsFound: bool): (s: ElementSpec)
    ensures s.eclass == InvalidClass && s.eshape == InvalidShape && s.etype == InvalidType
    ensures !s.threeFieldHex && !s.threeFieldTet && !s.threeFieldShell && !s.ut4
    ensures s.shellFormulation == ShellCode(NewShell)
    ensures s.threeFieldQuad == quadAsFound && s.threeFieldTri == triAsFound
  {
    ElementSpec(InvalidClass, InvalidShape, InvalidType, false, false, false,
                quadAsFound, triAsFound, false, ShellCode(NewShell))
  }

  /** The specification's equality operator: class, shape and type only. */
  predicate SpecEquals(a: ElementSpec, b: ElementSpec)
  {
    a.eclass == b.eclass && a.eshape == b.eshape && a.etype == b.etype
  }

  /** Equality ignores every flag and the shell formulation. */
  lemma SpecEqualsIgnoresFlags(a: ElementSpec, hex: bool, tet: bool, shell: bool,
                               quad: bool, tri: bool, ut4: bool, form: int)
    ensures SpecEquals(a, a.(threeFieldHex := hex, threeFieldTet := tet,
                             threeFieldShell := shell, threeFieldQuad := quad,
                             threeFieldTri := tri, ut4 := ut4, shellFormulation := form))
  {
  }

  /** Two default-constructed specifications compare equal whatever their unset flags hold. */
  lemma DefaultSpecsEqual(q1: bool, t1: bool, q2: bool, t2: bool)
    ensures SpecEquals(DefaultSpec(q1, t1), DefaultSpec(q2, t2))
  {
  }

  /** The equality operator is an equivalence relation. */
  lemma SpecEqualsEquivalence(a: ElementSpec, b: ElementSpec, c: ElementSpec)
    ensures SpecEquals(a, a)
    ensures SpecEquals(a, b) ==> SpecEquals(b, a)
    ensures SpecEquals(a, b) && SpecEquals(b, c) ==> SpecEquals(a, c)
  {
  }

  /** Specifications that differ in class, shape or type are never equal. */
  lemma SpecEqualsExactly(a: ElementSpec, b: ElementSpec)
    ensures SpecEquals(a, b) <==> (ClassCode(a.eclass) == ClassCode(b.eclass)
                                   && ShapeCode(a.eshape) == ShapeCode(b.eshape)
                                   && TypeCode(a.etype) == TypeCode(b.etype))
  {
    if ClassCode(a.eclass) == ClassCode(b.eclass) && ShapeCode(a.eshape) == ShapeCode(b.eshape)
       && TypeCode(a.etype) == TypeCode(b.etype)
    {
      ClassCodeInjective(a.eclass, b.eclass);
      if a.eshape != InvalidShape {
        ShapeCodeBijective(a.eshape, 0);
        ShapeCodeBijective(b.eshape, 0);
      }
      if a.etype != InvalidType {
        TypeCodeBijective(a.etype, 0);
        TypeCodeBijective(b.etype, 0);
      }
    }
  }

  lemma ClassCodeInjective(c: ElementClass, d: ElementClass)
    ensures ClassCode(c) == ClassCode(d) ==> c == d
  {
  }
}
