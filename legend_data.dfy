/** QwtLegendData: a map from attribute roles to variant values, with the
    convenience lookups hasRole, value, isValid and mode. */
module LegendData {
  import opened Types

  /** The roles QwtLegendData knows; values from UserRole up are free. */
  const ModeRole: int := 0
  const TitleRole: int := 1
  const IconRole: int := 2
  const UserRole: int := 32

  /** QwtLegendData::Mode. */
  const ReadOnly: int := 0
  const Clickable: int := 1
  const Checkable: int := 2

  /** The QVariant kinds that matter here: the null variant, the numeric
    and string kinds that convert to int, and any other type (QwtText,
    QwtGraphic, ...) identified by its type number. */
  datatype Variant =
    | Null
    | IntV(i: int)
    | DoubleV(d: real)
    | BoolV(b: bool)
    | StringV(s: string)
    | OtherV(typeId: nat)

  /** QVariant::canConvert<int>(). */
  predicate CanConvertToInt(v: Variant)
  {
    v.IntV? || v.DoubleV? || v.BoolV? || v.StringV?
  }

  /** qvariant_cast<int>(): doubles round, booleans are 0/1 and strings go
    through QString::toInt (passed in; 0 when the text is not a number). */
  function ToInt(v: Variant, parseInt: string -> int): (r: int)
    requires CanConvertToInt(v)
    ensures v.IntV? ==> r == v.i
    ensures v.BoolV? ==> r == (if v.b then 1 else 0)
    ensures v.DoubleV? ==> r as real - 0.5 <= v.d < r as real + 0.5
  {
    match v
    case IntV(i) => i
    case DoubleV(d) => QRound(d)
    case BoolV(b) => if b then 1 else 0
    case StringV(s) => parseInt(s)
  }

  class QwtLegendData {
    var values: map<int, Variant>

    constructor()
      ensures values == map[] && !IsValid()
    {
      values := map[];
    }

    /** setValues: replaces the whole map. */
    method SetValues(m: map<int, Variant>)
      modifies this
      ensures Values() == m
    {
      values := m;
    }

    function Values(): map<int, Variant>
      reads this
    {
      values
    }

    predicate HasRole(role: int)
      reads this
    {
      role in values
    }

    /** setValue: the role now holds data; every other role keeps its
      entry or its absence. */
    method SetValue(role: int, data: Variant)
      modifies this
      ensures HasRole(role) && Value(role) == data
      ensures forall r :: r != role ==> (HasRole(r) <==> old(HasRole(r))) && Value(r) == old(Value(r))
    {
      values := values[role := data];
    }

    /** value: the stored variant, the null variant for an absent role. */
    function Value(role: int): (v: Variant)
      reads this
      ensures !HasRole(role) ==> v.Null?
      ensures HasRole(role) ==> v == values[role]
    {
      if role !in values then Null else values[role]
    }

    /** isValid: the map is not empty. */
    predicate IsValid()
      reads this
    {
      |values| != 0
    }

    /** mode: the ModeRole value cast to int, ReadOnly when it is absent
      or not convertible to int. */
    function Mode(parseInt: string -> int): (m: int)
      reads this
      ensures !HasRole(ModeRole) ==> m == ReadOnly
      ensures HasRole(ModeRole) && !CanConvertToInt(values[ModeRole]) ==> m == ReadOnly
      ensures HasRole(ModeRole) && values[ModeRole].IntV? ==> m == values[ModeRole].i
    {
      var modeValue := Value(ModeRole);
      if CanConvertToInt(modeValue) then ToInt(modeValue, parseInt) else ReadOnly
    }
  }

  /** isValid holds exactly when some role has an entry. */
  lemma {:induction false} ValidIffSomeRole(d: QwtLegendData)
    ensures d.IsValid() <==> exists r :: d.HasRole(r)
  {
    if d.IsValid() {
      assert exists r :: r in d.values by {
        if forall r :: r !in d.values {
          assert false;
        }
      }
      var r :| r in d.values;
      assert d.HasRole(r);
    } else {
      assert d.values == map[];
    }
  }

  /** After setValue(ModeRole, m) with an int, mode() is m. */
  method SetModeThenRead(d: QwtLegendData, m: int, parseInt: string -> int) returns (read: int)
    modifies d
    ensures read == m && d.IsValid()
  {
    d.SetValue(ModeRole, IntV(m));
    read := d.Mode(parseInt);
    assert ModeRole in d.values;
  }
}
