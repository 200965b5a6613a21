/**
 * polyglot.ext.jl5.ast.JL5Case_c: a `case` label of a switch in the Java 5
 * extension, where labels may be enum constants. Resolving a label gives
 * the case its numeric value or rejects it.
 */
module JL5Cases {
  import opened Wrappers
  import opened Diagnostics

  type TypeRef = nat

  /** A Java `char`: a UTF-16 code unit, surrogates included. */
  type JavaChar = x: int | 0 <= x < 0x1_0000

  /** Java's signed integral types. */
  type JavaByte = x: int | -0x80 <= x < 0x80
  type JavaShort = x: int | -0x8000 <= x < 0x8000
  type JavaInt = x: int | -0x8000_0000 <= x < 0x8000_0000
  type JavaLong = x: int | -0x8000_0000_0000_0000 <= x < 0x8000_0000_0000_0000

  /** An enum constant: its name and ordinal. */
  datatype EnumInstance = EnumInstance(name: string, ordinal: int)

  /** The label expressions the resolution tells apart. */
  datatype Expr =
    | AmbExpr(pos: Position, name: string)
    | EnumConstant(pos: Position, receiver: TypeRef, name: string, instance: EnumInstance)
    | Lit(pos: Position, id: nat)
    | OtherExpr(pos: Position, id: nat)

  /** A compile-time constant value, by its Java box class. */
  datatype Constant =
    | ByteValue(b: JavaByte)
    | ShortValue(sh: JavaShort)
    | IntegerValue(i: JavaInt)
    | LongValue(l: JavaLong)
    | FloatValue(f: real)
    | DoubleValue(d: real)
    | CharacterValue(c: JavaChar)
    | BooleanValue(z: bool)
    | StringValue(str: string)

  /** A case: its position, its label (`None` for `default`) and its resolved value. */
  datatype Case = Case(pos: Position, expr: Option<Expr>, value: int)

  /** What resolution asks of the type checker, the type system and the label's expression. */
  datatype Checker = Checker(
    isClass: TypeRef -> bool,
    findEnumConstant: (TypeRef, string) -> Result<EnumInstance, SemanticError>,
    isTypeChecked: Expr -> bool,
    disambiguate: Expr -> Result<Expr, SemanticError>,
    typeCheck: Expr -> Expr,
    constantValue: Expr -> Option<Constant>)

  const NotIntegral := "Case label must be an integral constant."

  /** `disambiguateOverride`: the case itself exactly when its label is still ambiguous, else null. */
  function DisambiguateOverride(c: Case): (r: Option<Case>)
    ensures r.Some? <==> c.expr.Some? && c.expr.value.AmbExpr?
    ensures r.Some? ==> r.value == c
  {
    if c.expr.Some? && c.expr.value.AmbExpr? then Some(c) else None
  }

  /** `typeCheckOverride`: null (check normally) for `default` and literal labels, else the case itself. */
  function TypeCheckOverride(c: Case): (r: Option<Case>)
    ensures r.None? <==> c.expr.None? || c.expr.value.Lit?
    ensures r.Some? ==> r.value == c
  {
    if c.expr.None? || c.expr.value.Lit? then None else Some(c)
  }

  /**
   * The value a constant label denotes: the `long` value of a `Byte`,
   * `Short` or `Integer`, the code of a `Character`; nothing for any other
   * value or no value.
   */
  function IntegralValue(o: Option<Constant>): Option<int>
  {
    match o
    case Some(ByteValue(b)) => Some(b)
    case Some(ShortValue(sh)) => Some(sh)
    case Some(IntegerValue(i)) => Some(i)
    case Some(CharacterValue(c)) => Some(c)
    case _ => None
  }

  /** The label after the checks of the non-enum path: as it is, disambiguated and checked, or checked. */
  function CheckedLabel(ck: Checker, e: Expr): Result<Expr, SemanticError>
  {
    if ck.isTypeChecked(e) then Ok(e)
    else if e.AmbExpr? then
      match ck.disambiguate(e)
      case Ok(d) => Ok(ck.typeCheck(d))
      case Err(err) => Err(err)
    else Ok(ck.typeCheck(e))
  }

  /**
   * `resolveCaseLabel(tc, switchType)`: `default` stays as it is; on a
   * class-typed switch an enum label takes its ordinal (an ambiguous name is
   * first looked up as a constant of the switch type); any other label is
   * checked and takes its integral constant value, or is rejected.
   */
  function ResolveCaseLabel(ck: Checker, c: Case, switchType: TypeRef): (r: Result<Case, SemanticError>)
    ensures c.expr.None? ==> r == Ok(c)
    ensures r.Ok? ==> r.value.pos == c.pos && (c.expr.Some? ==> r.value.expr.Some?)
  {
    match c.expr
    case None => Ok(c)
    case Some(e) =>
      if ck.isClass(switchType) && e.EnumConstant? then
        Ok(c.(value := e.instance.ordinal))
      else if ck.isClass(switchType) && e.AmbExpr? then
        match ck.findEnumConstant(switchType, e.name)
        case Ok(ei) => Ok(c.(expr := Some(EnumConstant(e.pos, switchType, e.name, ei)), value := ei.ordinal))
        case Err(err) => Err(err)
      else
        match CheckedLabel(ck, e)
        case Err(err) => Err(err)
        case Ok(checked) =>
          match IntegralValue(ck.constantValue(checked))
          case Some(v) => Ok(c.(expr := Some(checked), value := v))
          case None => Err(SemanticError(NotIntegral, c.pos))
  }

  /**
   * On a class-typed switch an enum label resolves to its ordinal: a
   * resolved constant keeps its label, and an ambiguous name becomes the
   * enum constant the switch type declares under that name.
   */
  lemma EnumLabelTakesOrdinal(ck: Checker, c: Case, switchType: TypeRef)
    requires ck.isClass(switchType) && c.expr.Some?
    ensures c.expr.value.EnumConstant? ==>
      ResolveCaseLabel(ck, c, switchType) == Ok(c.(value := c.expr.value.instance.ordinal))
    ensures c.expr.value.AmbExpr? && ck.findEnumConstant(switchType, c.expr.value.name).Ok? ==>
      var ei := ck.findEnumConstant(switchType, c.expr.value.name).value;
      && ResolveCaseLabel(ck, c, switchType).Ok?
      && ResolveCaseLabel(ck, c, switchType).value.value == ei.ordinal
      && ResolveCaseLabel(ck, c, switchType).value.expr == Some(EnumConstant(c.expr.value.pos, switchType, c.expr.value.name, ei))
  {
  }

  /** Resolving an enum label again changes nothing: the label is then a resolved constant with its ordinal. */
  lemma EnumResolutionIdempotent(ck: Checker, c: Case, switchType: TypeRef)
    requires ck.isClass(switchType) && c.expr.Some?
    requires c.expr.value.EnumConstant? || c.expr.value.AmbExpr?
    requires ResolveCaseLabel(ck, c, switchType).Ok?
    ensures var c' := ResolveCaseLabel(ck, c, switchType).value;
      ResolveCaseLabel(ck, c', switchType) == Ok(c')
  {
  }

  /**
   * Off the enum path, a label whose checked constant is a `Byte`, `Short`,
   * `Integer` or `Character` takes that number as its value; any other
   * constant, and no constant, is rejected with "Case label must be an
   * integral constant." at the case's position.
   */
  lemma ConstantLabelValue(ck: Checker, c: Case, switchType: TypeRef)
    requires c.expr.Some?
    requires !(ck.isClass(switchType) && (c.expr.value.EnumConstant? || c.expr.value.AmbExpr?))
    requires CheckedLabel(ck, c.expr.value).Ok?
    ensures var checked := CheckedLabel(ck, c.expr.value).value;
      match ck.constantValue(checked)
      case Some(ByteValue(b)) => ResolveCaseLabel(ck, c, switchType) == Ok(Case(c.pos, Some(checked), b))
      case Some(ShortValue(sh)) => ResolveCaseLabel(ck, c, switchType) == Ok(Case(c.pos, Some(checked), sh))
      case Some(IntegerValue(i)) => ResolveCaseLabel(ck, c, switchType) == Ok(Case(c.pos, Some(checked), i))
      case Some(CharacterValue(ch)) => ResolveCaseLabel(ck, c, switchType) == Ok(Case(c.pos, Some(checked), ch))
      case _ => ResolveCaseLabel(ck, c, switchType) == Err(SemanticError(NotIntegral, c.pos))
  {
  }

  /**
   * A resolution error is either the lookup or check error of the label or
   * the integral-constant error; a `default` case never fails.
   */
  lemma ResolutionErrors(ck: Checker, c: Case, switchType: TypeRef)
    requires ResolveCaseLabel(ck, c, switchType).Err?
    ensures c.expr.Some?
    ensures var err := ResolveCaseLabel(ck, c, switchType).error;
      var e := c.expr.value;
      || (ck.isClass(switchType) && e.AmbExpr? && ck.findEnumConstant(switchType, e.name) == Err(err))
      || CheckedLabel(ck, e) == Err(err)
      || err == SemanticError(NotIntegral, c.pos)
  {
  }
}
