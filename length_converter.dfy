/**
 * The length converter: five fields (cm, m, in, ft, yd) kept in step through
 * centimetres. Editing one field keeps its text, recomputes the other four
 * from the parsed value, and, for a signed-in user and a positive value,
 * saves a record from the edited unit to cm.
 */
module LengthConverter {
  import opened Common
  import opened JsNumber
  import opened Schema
  import opened LocalStorage
  import opened UnitFields

  datatype Unit = Cm | M | In | Ft | Yd

  /** The unit's key as the component names it. */
  function Name(u: Unit): string
  {
    match u
    case Cm => "cm"
    case M => "m"
    case In => "in"
    case Ft => "ft"
    case Yd => "yd"
  }

  /** `conversionFactors`: how many of the unit make one centimetre's worth. */
  function Factor(u: Unit): (f: real)
    ensures f > 0.0
    ensures u == Cm <==> f == 1.0
  {
    match u
    case Cm => 1.0
    case M => 0.01
    case In => 0.393701
    case Ft => 0.0328084
    case Yd => 0.0109361
  }

  /** The five fields, `LengthValues`. */
  datatype Values = Values(cm: Field, m: Field, inches: Field, ft: Field, yd: Field)

  function Get(v: Values, u: Unit): Field
  {
    match u
    case Cm => v.cm
    case M => v.m
    case In => v.inches
    case Ft => v.ft
    case Yd => v.yd
  }

  /** `newValues[unit] = field`: one field replaced, the others kept. */
  function With(v: Values, u: Unit, field: Field): (r: Values)
    ensures Get(r, u) == field
    ensures forall t :: t != u ==> Get(r, t) == Get(v, t)
  {
    match u
    case Cm => v.(cm := field)
    case M => v.(m := field)
    case In => v.(inches := field)
    case Ft => v.(ft := field)
    case Yd => v.(yd := field)
  }

  /** The switch that turns the edited value into centimetres. */
  function ToCm(u: Unit, x: real): (cm: real)
    ensures cm * Factor(u) == x
  {
    if u == Cm then x else x / Factor(u)
  }

  /** `convertFromCm`: cm unrounded, every other unit to two decimals. */
  function ConvertFromCm(cm: real): (v: Values)
    ensures Get(v, Cm) == Plain(cm)
    ensures forall u :: u != Cm ==> Get(v, u) == Fixed2(cm * Factor(u))
  {
    Values(Plain(cm), Fixed2(cm * Factor(M)), Fixed2(cm * Factor(In)), Fixed2(cm * Factor(Ft)), Fixed2(cm * Factor(Yd)))
  }

  /** All five fields recomputed from the value `x` of unit `u`, through centimetres. */
  function ConvertFrom(u: Unit, x: real): (v: Values)
    ensures forall t :: !Get(v, t).Typed? && Get(v, t).value == x * Factor(t) / Factor(u)
    ensures forall t :: Get(v, t).Plain? <==> t == Cm
  {
    var cm := ToCm(u, x);
    var v := ConvertFromCm(cm);
    forall t
      ensures !Get(v, t).Typed? && Get(v, t).value == x * Factor(t) / Factor(u)
    {
      FieldThroughBase(u, x, t);
    }
    v
  }

  /** One field of the recomputed values, reached through the base unit. */
  lemma FieldThroughBase(u: Unit, x: real, t: Unit)
    ensures var f := Get(ConvertFromCm(ToCm(u, x)), t); !f.Typed? && f.value == x * Factor(t) / Factor(u)
  {
    var cm := ToCm(u, x);
    var f := Get(ConvertFromCm(cm), t);
    assert f.value == cm * Factor(t);
    ThroughBase(cm, x, Factor(u), Factor(t));
  }

  /** The fields after editing `u` to `text`: the text kept, the rest from its value. */
  function Edited(u: Unit, text: string): (v: Values)
    ensures Get(v, u) == Typed(text)
    ensures forall t :: t != u ==> Get(v, t) == Get(ConvertFrom(u, ParseFloatOrZero(text)), t)
  {
    With(ConvertFrom(u, ParseFloatOrZero(text)), u, Typed(text))
  }

  /** Text that is not a number leaves every other field at 0. */
  lemma NonNumericEditZeroes(u: Unit, text: string)
    requires ParseFloat(text).None?
    ensures forall t :: t != u ==> Get(Edited(u, text), t) in {Plain(0.0), Fixed2(0.0)}
  {
    assert ParseFloatOrZero(text) == 0.0;
    assert ToCm(u, 0.0) == 0.0;
    var v := ConvertFromCm(0.0);
    assert ConvertFrom(u, 0.0) == v;
    forall t | t != u
      ensures Get(Edited(u, text), t) in {Plain(0.0), Fixed2(0.0)}
    {
      assert Get(Edited(u, text), t) == Get(v, t);
    }
  }

  /**
   * The fields are in step: recomputing from the value of any field `t`
   * gives back all the fields, because that value leads to the same cm.
   */
  lemma ConvertFromAnyField(u: Unit, t: Unit, x: real)
    ensures ConvertFrom(t, Get(ConvertFrom(u, x), t).value) == ConvertFrom(u, x)
  {
    var base := ToCm(u, x);
    var y := Get(ConvertFromCm(base), t).value;
    assert y == base * Factor(t);
    ScaleBack(base, Factor(t));
    assert ToCm(t, y) == base;
  }

  /** The record `handleValueChange` saves: from the edited unit to cm. */
  function SavedRecord(u: Unit, text: string, user: bool): (r: Option<ConversionInput>)
    ensures r.Some? <==> user && ParseFloatOrZero(text) > 0.0
    ensures r.Some? ==> r.value == ConversionInput("length", Name(u), "cm", ParseFloatOrZero(text),
                                                   ParseFloatOrZero(text) / Factor(u), None)
  {
    var x := ParseFloatOrZero(text);
    if user && x > 0.0 then Some(ConversionInput("length", Name(u), "cm", x, ToCm(u, x), None)) else None
  }

  class Converter {
    var values: Values
    var lastChanged: Unit

    constructor ()
      ensures values == Values(Typed("100"), Typed("1"), Typed("39.37"), Typed("3.28"), Typed("1.09"))
      ensures lastChanged == Cm
    {
      values := Values(Typed("100"), Typed("1"), Typed("39.37"), Typed("3.28"), Typed("1.09"));
      lastChanged := Cm;
    }

    /** `handleValueChange`: update the fields and report the record saved, if any. */
    method HandleValueChange(u: Unit, text: string, user: bool) returns (saved: Option<ConversionInput>)
      modifies this
      ensures lastChanged == u
      ensures values == Edited(u, text)
      ensures saved == SavedRecord(u, text, user)
    {
      var x := ParseFloatOrZero(text);
      lastChanged := u;
      var newValues := ConvertFrom(u, x);
      newValues := With(newValues, u, Typed(text));
      values := newValues;
      if user && x > 0.0 {
        saved := Some(ConversionInput("length", Name(u), "cm", x, ToCm(u, x), None));
      } else {
        saved := None;
      }
    }

    /** `handleAddToFavorites`: the POST body sent, or `None` when nobody is signed in. */
    method AddToFavorites(user: bool) returns (request: Option<FavoriteBody>)
      ensures !user ==> request.None?
      ensures user ==> request == Some(FavoriteBody(None, Some("length"), Some(Name(lastChanged)), Some("all")))
    {
      if !user {
        return None;
      }
      request := Some(FavoriteBody(None, Some("length"), Some(Name(lastChanged)), Some("all")));
    }
  }
}
