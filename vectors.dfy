/** Integer vectors and the six axis directions (Direction.cs, DirectionExtentions.cs). */
module Vectors {
  import opened Wrappers

  /** Vector3Int. */
  datatype Vec3 = Vec3(x: int, y: int, z: int) {
    function Plus(o: Vec3): Vec3 { Vec3(x + o.x, y + o.y, z + o.z) }
    function Minus(o: Vec3): Vec3 { Vec3(x - o.x, y - o.y, z - o.z) }
    function Negated(): Vec3 { Vec3(-x, -y, -z) }
  }

  /** Vector2Int. */
  datatype Vec2 = Vec2(x: int, y: int)

  const Zero := Vec3(0, 0, 0)

  /** Mathf.Abs of an int. */
  function Abs(n: int): nat {
    if n < 0 then -n else n
  }

  /** The enum values, in declaration order (ordinals 0 to 5). */
  datatype Direction = Right | Left | Down | Up | Forward | Back

  /** Unity's Vector3Int.right, left, down, up, forward, back. */
  function ToVector3Int(d: Direction): (v: Vec3)
    ensures IsUnitAxis(v)
  {
    match d
    case Right => Vec3(1, 0, 0)
    case Left => Vec3(-1, 0, 0)
    case Down => Vec3(0, -1, 0)
    case Up => Vec3(0, 1, 0)
    case Forward => Vec3(0, 0, 1)
    case Back => Vec3(0, 0, -1)
  }

  /** The enum value with the given ordinal; any other integer cast to the enum is not a named direction. */
  function DirectionOfOrdinal(n: int): Option<Direction> {
    if n == 0 then Some(Right)
    else if n == 1 then Some(Left)
    else if n == 2 then Some(Down)
    else if n == 3 then Some(Up)
    else if n == 4 then Some(Forward)
    else if n == 5 then Some(Back)
    else None
  }

  /** ToVector3Int applied to an enum variable holding the integer `n`: the switch's default arm throws. */
  function ToVector3IntOfOrdinal(n: int): (r: Result<Vec3>)
    ensures r.Err? <==> (n < 0 || n > 5)
    ensures r.Err? ==> r.error == InvalidDirection
    ensures r.Ok? ==> r.value == ToVector3Int(DirectionOfOrdinal(n).value)
  {
    match DirectionOfOrdinal(n)
    case Some(d) => Ok(ToVector3Int(d))
    case None => Err(InvalidDirection)
  }

  /** Exactly one component is nonzero and it is 1 or -1. */
  predicate IsUnitAxis(v: Vec3) {
    || ((v.x == 1 || v.x == -1) && v.y == 0 && v.z == 0)
    || (v.x == 0 && (v.y == 1 || v.y == -1) && v.z == 0)
    || (v.x == 0 && v.y == 0 && (v.z == 1 || v.z == -1))
  }

  function Opposite(d: Direction): Direction {
    match d
    case Right => Left
    case Left => Right
    case Down => Up
    case Up => Down
    case Forward => Back
    case Back => Forward
  }

  /** Distinct directions map to distinct vectors. */
  lemma ToVector3IntInjective(d1: Direction, d2: Direction)
    ensures ToVector3Int(d1) == ToVector3Int(d2) ==> d1 == d2
  {
  }

  /** Right/Left, Up/Down and Forward/Back map to negated vectors. */
  lemma OppositeIsNegated(d: Direction)
    ensures ToVector3Int(Opposite(d)) == ToVector3Int(d).Negated()
  {
    match d
    case Right =>
    case Left =>
    case Down =>
    case Up =>
    case Forward =>
    case Back =>
  }

  /** Opposite pairs the six directions off. */
  lemma OppositeIsInvolution(d: Direction)
    ensures Opposite(d) != d && Opposite(Opposite(d)) == d
  {
  }

  /** The vectors agree with the comments of the enum: +x, -x, -y, +y, +z, -z. */
  lemma AgreesWithEnumComments()
    ensures ToVector3Int(Right).x == 1 && ToVector3Int(Left).x == -1
    ensures ToVector3Int(Down).y == -1 && ToVector3Int(Up).y == 1
    ensures ToVector3Int(Forward).z == 1 && ToVector3Int(Back).z == -1
  {
  }
}
