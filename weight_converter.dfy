/**
 * The weight converter: four fields (kg, lb, g, oz) kept in step through
 * kilograms. Editing one field keeps its text, recomputes the other three
 * from the parsed value, and, for a signed-in user and a positive value,
 * saves a record from the edited unit to kg.
 */
module WeightConverter {
  import opened Common
  import opened JsNumber
  import opened Schema
  import opened LocalStorage
  import opened UnitFields

  datatype Unit = Kg | Lb | G | Oz

  /** The unit's key as the component names it. */
  function Name(u: Unit): string
  {
    match u
    case Kg => "kg"
    case Lb => "lb"
    case G => "g"
    case Oz => "oz"
  }

  /** `conversionFactors`: how many of the unit make one kilogram. */
  function Factor(u: Unit): (f: real)
    ensures f > 0.0
    ensures u == Kg <==> f == 1.0
  {
    match u
    case Kg => 1.0
    case Lb => 2.20462
    case G => 1000.0
    case Oz => 35.274
  }

  /** The four fields, `WeightValues`. */
  datatype Values = Values(kg: Field, lb: Field, g: Field, oz: Field)

  function Get(v: Values, u: Unit): Field
  {
    match u
    case Kg => v.kg
    case Lb => v.lb
    case G => v.g
    case Oz => v.oz
  }

  /** `newValues[unit] = field`: one field replaced, the others kept. */
  function With(v: Values, u: Unit, field: Field): (r: Values)
    ensures Get(r, u) == field
    ensures forall t :: t != u ==> Get(r, t) == Get(v, t)
  {
    match u
    case Kg => v.(kg := field)
    case Lb => v.(lb := field)
    case G => v.(g := field)
    case Oz => v.(oz := field)
  }

  /** The switch that turns the edited value into kilograms. */
  function ToKg(u: Unit, x: real): (kg: real)
    ensures kg * Factor(u) == x
  {
    if u == Kg then x else x / Factor(u)
  }

  /** `convertFromKg`: kg and g unrounded, lb and oz to two decimals. */
  function ConvertFromKg(kg: real): (v: Values)
    ensures Get(v, Kg) == Plain(kg) && Get(v, G) == Plain(kg * Factor(G))
    ensures Get(v, Lb) == Fixed2(kg * Factor(Lb)) && Get(v, Oz) == Fixed2(kg * Factor(Oz))
  {
    Values(Plain(kg), Fixed2(kg * Factor(Lb)), Plain(kg * Factor(G)), Fixed2(kg * Factor(Oz)))
  }

  /** All four fields recomputed from the value `x` of unit `u`, through kilograms. */
  function ConvertFrom(u: Unit, x: real): (v: Values)
    ensures forall t :: !Get(v, t).Typed? && Get(v, t).value == x * Factor(t) / Factor(u)
    ensures forall t :: Get(v, t).Plain? <==> t == Kg || t == G
  {
    var kg := ToKg(u, x);
    var v := ConvertFromKg(kg);
    forall t
      ensures !Get(v, t).Typed? && Get(v, t).value == x * Factor(t) / Factor(u)
    {
      FieldThroughBase(u, x, t);
    }
    v
  }

  /** One field of the recomputed values, reached through the base unit. */
  lemma FieldThroughBase(u: Unit, x: real, t: Unit)
    ensures var f := Get(ConvertFromKg(ToKg(u, x)), t); !f.Typed? && f.value == x * Factor(t) / Factor(u)
  {
    var kg := ToKg(u, x);
    var f := Get(ConvertFromKg(kg), t);
    assert f.value == kg * Factor(t);
    ThroughBase(kg, x, Factor(u), Factor(t));
  }

  /** The fields after editing `u` to `text`: the text kept, the rest from its value. */
  function Edited(u: Unit, text: string): (v: Values)
    ensures Get(v, u) == Typed(text)
    ensures forall t :: t != u ==> Get(v, t) == Get(ConvertFrom(u, ParseFloatOrZero(text)), t)
  {
    With(ConvertFrom(u, ParseFloatOrZero(text)), u, Typed(text))
  }

  /** Text that is not a number leaves every other field at 0. */
  lemma NonNumericEditZeroes(u: Unit, text: string)
    requires ParseFloat(text).None?
    ensures forall t :: t != u ==> Get(Edited(u, text), t) in {Plain(0.0), Fixed2(0.0)}
  {
    assert ParseFloatOrZero(text) == 0.0;
    assert ToKg(u, 0.0) == 0.0;
    var v := ConvertFromKg(0.0);
    assert ConvertFrom(u, 0.0) == v;
    forall t | t != u
      ensures Get(Edited(u, text), t) in {Plain(0.0), Fixed2(0.0)}
    {
      assert Get(Edited(u, text), t) == Get(v, t);
    }
  }

  /**
   * The fields are in step: recomputing from the value of any field `t`
   * gives back all the fields, because that value leads to the same kg.
   */
  lemma ConvertFromAnyField(u: Unit, t: Unit, x: real)
    ensures ConvertFrom(t, Get(ConvertFrom(u, x), t).value) == ConvertFrom(u, x)
  {
    var base := ToKg(u, x);
    var y := Get(ConvertFromKg(base), t).value;
    assert y == base * Factor(t);
    ScaleBack(base, Factor(t));
    assert ToKg(t, y) == base;
  }

  /** The record `handleValueChange` saves: from the edited unit to kg. */
  function SavedRecord(u: Unit, text: string, user: bool): (r: Option<ConversionInput>)
    ensures r.Some? <==> user && ParseFloatOrZero(text) > 0.0
    ensures r.Some? ==> r.value == ConversionInput("weight", Name(u), "kg", ParseFloatOrZero(text),
                                                   ParseFloatOrZero(text) / Factor(u), None)
  {
    var x := ParseFloatOrZero(text);
    if user && x > 0.0 then Some(ConversionInput("weight", Name(u), "kg", x, ToKg(u, x), None)) else None
  }

  class Converter {
    var values: Values
    var lastChanged: Unit

    constructor ()
      ensures values == Values(Typed("70"), Typed("154.32"), Typed("70000"), Typed("2469.17"))
      ensures lastChanged == Kg
    {
      values := Values(Typed("70"), Typed("154.32"), Typed("70000"), Typed("2469.17"));
      lastChanged := Kg;
    }

    /** `handleValueChange`: update the fields and report the record saved, if any. */
    method HandleValueChange(u: Unit, text: string, user: bool) returns (saved: Option<ConversionInput>)
      modifies this
      ensures lastChanged == u
      ensures values == Edited(u, text)
      ensures saved == SavedRecord(u, text, user)
    {
      var x := ParseFloatOrZero(text);
      lastChanged := u;
      var newValues := ConvertFrom(u, x);
      newValues := With(newValues, u, Typed(text));
      values := newValues;
      if user && x > 0.0 {
        saved := Some(ConversionInput("weight", Name(u), "kg", x, ToKg(u, x), None));
      } else {
        saved := None;
      }
    }

    /** `handleAddToFavorites`: the POST body sent, or `None` when nobody is signed in. */
    method AddToFavorites(user: bool) returns (request: Option<FavoriteBody>)
      ensures !user ==> request.None?
      ensures user ==> request == Some(FavoriteBody(None, Some("weight"), Some(Name(lastChanged)), Some("all")))
    {
      if !user {
        return None;
      }
      request := Some(FavoriteBody(None, Some("weight"), Some(Name(lastChanged)), Some("all")));
    }
  }
}
