/**
 Shaping a quotation into the result record a viewer sees. The record is the
 source's dictionary: a key that is absent differs from a key holding None.
 */
module Records {
  import opened Wrappers
  import opened Units
  import opened Rates
  import opened Pricing
  import opened Quote

  /** A field value of the result record. */
  datatype Value = Text(s: string) | Num(x: real) | Null

  /**
   The columns of the result record; `Label` gives the column name the source
   uses as the dictionary key.
   */
  datatype Field =
    | ItemCol | UserCol | UserEmailCol | SupplierCol | SqnCol | CountryCol | OriginCol
    | DestinationCol | WeightValueCol | WeightTypeCol | ConvertedGsmCol | WidthCol
    | UnitCol | WidthMCol | WeightPerMCol
    | AirRateCol | FinalAirCol | SeaRateCol | FinalSeaCol

  function Label(f: Field): string
  {
    match f
    case ItemCol => "Item"
    case UserCol => "User"
    case UserEmailCol => "User Email"
    case SupplierCol => "Supplier"
    case SqnCol => "SQN"
    case CountryCol => "Country"
    case OriginCol => "Origin"
    case DestinationCol => "Destination"
    case WeightValueCol => "Weight Value"
    case WeightTypeCol => "Weight Type"
    case ConvertedGsmCol => "Converted GSM (g/m²)"
    case WidthCol => "Width"
    case UnitCol => "Unit"
    case WidthMCol => "Width (m)"
    case WeightPerMCol => "Weight/m (kg)"
    case AirRateCol => "Air Rate ($/kg)"
    case FinalAirCol => "Final Air Rate ($)"
    case SeaRateCol => "Sea Rate ($/CBM)"
    case FinalSeaCol => "Final Sea Rate ($)"
  }

  /** Distinct columns have distinct key strings, so a map keyed by `Field` is the source's dictionary. */
  lemma LabelInjective(f: Field, g: Field)
    ensures Label(f) == Label(g) ==> f == g
  {
  }

  type Record = map<Field, Value>

  /** The two roles login assigns. */
  datatype Role = Admin | Business

  /** The logged-in user, echoed into every record. */
  datatype Viewer = Viewer(displayName: string, email: string)

  /**
   Python's `round(x, ndigits)` on the figures the record shows. It is taken as
   a parameter: nothing below depends on how it rounds.
   */
  type Rounder = (real, int) -> real

  /** The decimal digit for `d`. */
  function Digit(d: nat): (c: char)
    requires d < 10
    ensures '0' <= c <= '9'
    ensures DigitValue(c) == d
  {
    ('0' as int + d) as char
  }

  /** The number a decimal digit stands for. */
  function DigitValue(c: char): nat
    requires '0' <= c <= '9'
  {
    c as int - '0' as int
  }

  /** The number a string of decimal digits stands for, most significant digit first. */
  function DecimalValue(s: string): nat
    requires forall i :: 0 <= i < |s| ==> '0' <= s[i] <= '9'
    decreases |s|
  {
    if |s| == 0 then 0 else DecimalValue(s[..|s| - 1]) * 10 + DigitValue(s[|s| - 1])
  }

  /** Decimal notation of `n`, as Python's string formatting writes it. */
  function NatToString(n: nat): (s: string)
    ensures |s| >= 1
    ensures forall i :: 0 <= i < |s| ==> '0' <= s[i] <= '9'
    ensures DecimalValue(s) == n
    ensures n >= 10 ==> s[0] != '0' && |s| >= 2
    ensures s[0] == '0' ==> s == "0"
    decreases n
  {
    if n < 10 then [Digit(n)]
    else
      var prefix := NatToString(n / 10);
      var s := prefix + [Digit(n % 10)];
      assert s[..|s| - 1] == prefix;
      s
  }

  /** Different numbers have different decimal notations. */
  lemma NatToStringInjective(a: nat, b: nat)
    ensures NatToString(a) == NatToString(b) ==> a == b
  {
  }

  /** The label of the item at position `idx` (counted from 0): "Item " and the number idx + 1. */
  function ItemLabel(idx: nat): (text: string)
    ensures |text| >= 6 && text[..5] == "Item "
    ensures forall i :: 5 <= i < |text| ==> '0' <= text[i] <= '9'
    ensures DecimalValue(text[5..]) == idx + 1
    ensures text[5] != '0'
  {
    var digits := NatToString(idx + 1);
    var text := "Item " + digits;
    assert text[5..] == digits;
    text
  }

  /** Items at different positions get different labels. */
  lemma ItemLabelsDistinct(j: nat, k: nat)
    ensures j != k ==> ItemLabel(j) != ItemLabel(k)
  {
  }

  /** The four columns that carry a rate; every other column is in every record. */
  predicate IsRateColumn(f: Field)
  {
    f.AirRateCol? || f.FinalAirCol? || f.SeaRateCol? || f.FinalSeaCol?
  }

  /**
   The visibility mask: whether the record for `role` holds field `f`. Every
   field outside the four rate fields is always shown; a mode's final rate is
   shown when the mode is available, and its base rate only to Admin.
   */
  function Visible(f: Field, role: Role, q: Quotation): (v: bool)
    ensures !IsRateColumn(f) ==> v
    ensures (f.AirRateCol? || f.SeaRateCol?) && v ==> role == Admin
    ensures (f.AirRateCol? || f.FinalAirCol?) && v ==> q.airRate.Some?
    ensures (f.SeaRateCol? || f.FinalSeaCol?) && v ==> q.seaRate.Some?
  {
    match f
    case AirRateCol => role == Admin && q.airRate.Some?
    case FinalAirCol => q.airRate.Some?
    case SeaRateCol => role == Admin && q.seaRate.Some?
    case FinalSeaCol => q.seaRate.Some?
    case _ => true
  }

  /**
   The value the source stores under `f`, whichever role it is shown to. Rate
   fields of an unavailable mode are never visible; they read Null here.
   */
  function FieldValue(f: Field, idx: nat, viewer: Viewer, item: LineItem, q: Quotation, rnd: Rounder): (v: Value)
    ensures v == Null <==>
              (f.ConvertedGsmCol? && item.weightType != GlmGramsPerM)
              || ((f.AirRateCol? || f.FinalAirCol?) && q.airRate.None?)
              || ((f.SeaRateCol? || f.FinalSeaCol?) && q.seaRate.None?)
  {
    match f
    case ItemCol => Text(ItemLabel(idx))
    case UserCol => Text(viewer.displayName)
    case UserEmailCol => Text(viewer.email)
    case SupplierCol => Text(item.supplier)
    case SqnCol => Text(item.sqn)
    case CountryCol => Text(item.route.country)
    case OriginCol => Text(item.route.origin)
    case DestinationCol => Text(item.route.destination)
    case WeightValueCol => Num(item.weightValue)
    case WeightTypeCol => Text(WeightTypeLabel(item.weightType))
    case ConvertedGsmCol =>
      if item.weightType == GlmGramsPerM then Num(rnd(q.density.displayGsm, 2)) else Null
    case WidthCol => Num(item.width)
    case UnitCol => Text(UnitLabel(item.unit))
    case WidthMCol => Num(rnd(q.widthM, 4))
    case WeightPerMCol => Num(rnd(q.density.kgPerM, 6))
    case AirRateCol => if q.airRate.Some? then Num(rnd(q.airRate.value, 2)) else Null
    case FinalAirCol => if q.FinalAirRate().Some? then Num(rnd(q.FinalAirRate().value, 4)) else Null
    case SeaRateCol => if q.seaRate.Some? then Num(rnd(q.seaRate.value, 2)) else Null
    case FinalSeaCol => if q.FinalSeaRate().Some? then Num(rnd(q.FinalSeaRate().value, 4)) else Null
  }

  /** The record the source builds for one evaluated item and the viewer's role. */
  function ShapeRecord(idx: nat, viewer: Viewer, item: LineItem, q: Quotation, role: Role, rnd: Rounder)
    : (rec: Record)
    ensures forall f :: !IsRateColumn(f) ==> f in rec
    ensures AirRateCol in rec <==> role == Admin && q.airRate.Some?
    ensures SeaRateCol in rec <==> role == Admin && q.seaRate.Some?
    ensures FinalAirCol in rec <==> q.FinalAirRate().Some?
    ensures FinalSeaCol in rec <==> q.FinalSeaRate().Some?
  {
    map f: Field | Visible(f, role, q) :: FieldValue(f, idx, viewer, item, q, rnd)
  }

  /** A visible column of the record holds that column's value. */
  lemma ShapeLookup(f: Field, idx: nat, viewer: Viewer, item: LineItem, q: Quotation, role: Role, rnd: Rounder)
    requires Visible(f, role, q)
    ensures var rec := ShapeRecord(idx, viewer, item, q, role, rnd);
            f in rec && rec[f] == FieldValue(f, idx, viewer, item, q, rnd)
  {
  }

  /**
   The values the record shows: its label, the width and weight per metre
   rounded for display, and a converted GSM only for GLM input.
   */
  lemma RecordValues(idx: nat, viewer: Viewer, item: LineItem, q: Quotation, role: Role, rnd: Rounder)
    ensures var rec := ShapeRecord(idx, viewer, item, q, role, rnd);
            rec[ItemCol] == Text(ItemLabel(idx))
            && rec[WidthMCol] == Num(rnd(q.widthM, 4))
            && rec[WeightPerMCol] == Num(rnd(q.density.kgPerM, 6))
            && (rec[ConvertedGsmCol] != Null <==> item.weightType == GlmGramsPerM)
            && (item.weightType == GlmGramsPerM ==> rec[ConvertedGsmCol] == Num(rnd(q.density.displayGsm, 2)))
  {
    ShapeLookup(ItemCol, idx, viewer, item, q, role, rnd);
    ShapeLookup(WidthMCol, idx, viewer, item, q, role, rnd);
    ShapeLookup(WeightPerMCol, idx, viewer, item, q, role, rnd);
    ShapeLookup(ConvertedGsmCol, idx, viewer, item, q, role, rnd);
  }

  /**
   Each visible rate column holds its rate rounded for display: a base rate to
   two places and a final price to four.
   */
  lemma RateValues(idx: nat, viewer: Viewer, item: LineItem, q: Quotation, role: Role, rnd: Rounder)
    ensures var rec := ShapeRecord(idx, viewer, item, q, role, rnd);
            (AirRateCol in rec ==> rec[AirRateCol] == Num(rnd(q.airRate.value, 2)))
            && (SeaRateCol in rec ==> rec[SeaRateCol] == Num(rnd(q.seaRate.value, 2)))
            && (FinalAirCol in rec ==> rec[FinalAirCol] == Num(rnd(q.FinalAirRate().value, 4)))
            && (FinalSeaCol in rec ==> rec[FinalSeaCol] == Num(rnd(q.FinalSeaRate().value, 4)))
  {
    if q.airRate.Some? {
      ShapeLookup(FinalAirCol, idx, viewer, item, q, role, rnd);
      if role == Admin {
        ShapeLookup(AirRateCol, idx, viewer, item, q, role, rnd);
      }
    }
    if q.seaRate.Some? {
      ShapeLookup(FinalSeaCol, idx, viewer, item, q, role, rnd);
      if role == Admin {
        ShapeLookup(SeaRateCol, idx, viewer, item, q, role, rnd);
      }
    }
  }

  /** The columns naming the viewer, the supplier and the route hold them unchanged, for either role. */
  lemma EchoedParties(idx: nat, viewer: Viewer, item: LineItem, q: Quotation, role: Role, rnd: Rounder)
    ensures var rec := ShapeRecord(idx, viewer, item, q, role, rnd);
            rec[UserCol] == Text(viewer.displayName)
            && rec[UserEmailCol] == Text(viewer.email)
            && rec[SupplierCol] == Text(item.supplier)
            && rec[SqnCol] == Text(item.sqn)
            && rec[CountryCol] == Text(item.route.country)
            && rec[OriginCol] == Text(item.route.origin)
            && rec[DestinationCol] == Text(item.route.destination)
  {
    ShapeLookup(UserCol, idx, viewer, item, q, role, rnd);
    ShapeLookup(UserEmailCol, idx, viewer, item, q, role, rnd);
    ShapeLookup(SupplierCol, idx, viewer, item, q, role, rnd);
    ShapeLookup(SqnCol, idx, viewer, item, q, role, rnd);
    ShapeLookup(CountryCol, idx, viewer, item, q, role, rnd);
    ShapeLookup(OriginCol, idx, viewer, item, q, role, rnd);
    ShapeLookup(DestinationCol, idx, viewer, item, q, role, rnd);
  }

  /** The columns echoing the entered weight and width, with their labels, hold them unchanged, for either role. */
  lemma EchoedMeasurements(idx: nat, viewer: Viewer, item: LineItem, q: Quotation, role: Role, rnd: Rounder)
    ensures var rec := ShapeRecord(idx, viewer, item, q, role, rnd);
            rec[WeightValueCol] == Num(item.weightValue)
            && rec[WeightTypeCol] == Text(WeightTypeLabel(item.weightType))
            && rec[WidthCol] == Num(item.width)
            && rec[UnitCol] == Text(UnitLabel(item.unit))
  {
    ShapeLookup(WeightValueCol, idx, viewer, item, q, role, rnd);
    ShapeLookup(WeightTypeCol, idx, viewer, item, q, role, rnd);
    ShapeLookup(WidthCol, idx, viewer, item, q, role, rnd);
    ShapeLookup(UnitCol, idx, viewer, item, q, role, rnd);
  }

  /** The fields an Admin sees and a Business user does not: the base rate of each available mode. */
  function WithheldFields(q: Quotation): set<Field>
  {
    (if q.airRate.Some? then {AirRateCol} else {}) + (if q.seaRate.Some? then {SeaRateCol} else {})
  }

  /**
   For the same item, the Business record is the Admin record with the base
   rates removed: its keys are a subset, every shared field is equal, and the
   subset is strict exactly when some mode is available.
   */
  lemma RoleGating(idx: nat, viewer: Viewer, item: LineItem, q: Quotation, rnd: Rounder)
    ensures var admin := ShapeRecord(idx, viewer, item, q, Admin, rnd);
            var business := ShapeRecord(idx, viewer, item, q, Business, rnd);
            business.Keys <= admin.Keys
            && (forall f :: f in business ==> business[f] == admin[f])
            && admin.Keys - business.Keys == WithheldFields(q)
            && (business.Keys < admin.Keys <==> q.airRate.Some? || q.seaRate.Some?)
  {
    var admin := ShapeRecord(idx, viewer, item, q, Admin, rnd);
    var business := ShapeRecord(idx, viewer, item, q, Business, rnd);
    forall f | f in business
      ensures f in admin && business[f] == admin[f]
    {
      assert Visible(f, Business, q);
    }
    forall f
      ensures f in admin.Keys - business.Keys <==> f in WithheldFields(q)
    {
      if f in admin.Keys - business.Keys {
        assert Visible(f, Admin, q) && !Visible(f, Business, q);
      }
    }
  }

  /** Whether the record shows air freight, read off its keys as the results panel does. */
  predicate AirShown(rec: Record)
  {
    AirRateCol in rec || FinalAirCol in rec
  }

  /** Whether the record shows sea freight, read off its keys as the results panel does. */
  predicate SeaShown(rec: Record)
  {
    SeaRateCol in rec || FinalSeaCol in rec
  }

  /** Reading availability back from the record's keys gives the lookup's availability, for both roles. */
  lemma AvailabilityFromKeys(idx: nat, viewer: Viewer, item: LineItem, q: Quotation, role: Role, rnd: Rounder)
    ensures AirShown(ShapeRecord(idx, viewer, item, q, role, rnd)) <==> q.airRate.Some?
    ensures SeaShown(ShapeRecord(idx, viewer, item, q, role, rnd)) <==> q.seaRate.Some?
  {
  }
}
