# Freight-rate quoting engine

This is a Dafny model of the quoting engine inside the freight-costing calculator's `main.py`. The engine takes a
list of fabric line items, the first of which is the "main" item. For each item it does four things:

1. It converts the width to metres. It converts the weight from one of three forms (GSM g/m², GSM kg/m², GLM g/m)
   into kilograms per square metre and then into kilograms per running metre.
2. It looks up the air and sea base rates. Each rate table is a nested map country → origin → destination → rate.
3. It prices each available mode. Air is rate × kg/m × 1.2. Sea is rate × (kg/m ÷ 166) × 1.3.
4. It builds a result record whose visible columns depend on the viewer's role. Admin sees the base rates and the
   final rates. Business sees only the final rates.

Modules follow those steps:

- `Wrappers` (`wrappers.dfy`): `Option`, the source's `None`, and `Result`, a value or the exception that stops
  the batch.
- `Units` (`units.dfy`): width units, weight types, `WidthMeters`, the guarded GLM division `GlmToGsm`, and
  `Normalize`.
- `Rates` (`rates.dfy`): the nested rate table. It has the plain nested lookup `RouteRate` and the lookup as the
  engine performs it, `LookupRate`.
- `Pricing` (`pricing.dfy`): the constants `AIR_MARKUP = 1.2`, `SEA_MARKUP = 1.3` and `KG_PER_CBM = 166`, and the
  final-price formulas.
- `Quote` (`quote.dfy`): `Evaluate`, which runs one item through normalisation, lookup and pricing.
- `Records` (`records.dfy`): the result record as a map from column to value, the role visibility mask, and the
  role-gating properties.
- `Batch` (`batch.dfy`): the loop over all items.

All quantities are Dafny `real`s. Python's `round` is a parameter `rnd: (real, int) -> real`, so every property
about records holds whatever rounding does. The result record is a `map<Field, Value>`. `Field` names the
dictionary's columns, and `Label` gives each column's key string. A column holding `None` (`Null`) is distinct
from a missing column, as in the source. "Converted GSM (g/m²)" is always present and is `Null` unless the weight
type is GLM. The base- and final-rate columns are absent when the mode is unavailable.

Two behaviours of the source are reproduced, not corrected:

- **Guard country.** Both lookup guards test the main item's `country` and then index the table with the item's
  own country (main.py:452, 455). `LookupRate` takes the guard country as a separate argument, and `QuoteBatch`
  passes `items[0].route.country` for every item. When the main country is a key but the item's country is not,
  the lookup raises `KeyError`. The model returns `Failure(KeyError(country))`, and the batch stops at the first
  failing item. When the main country is not a key, a route the table serves is reported as unavailable.
  `Rates.GuardMismatch` characterises both cases. `Rates.KeyErrorExample` and `Rates.HiddenRouteExample` give
  concrete inputs.
- **Intermediates visible to Business.** Both roles receive "Width (m)" and "Weight/m (kg)". Only the base-rate
  columns are withheld from Business.

With no available mode, the Business record has the same columns as the Admin record. The Business columns are a
strict subset only when some mode is available (`Records.RoleGating`).

## Model

| member | source | states |
|---|---|---|
| Units.WidthMeters | main.py:430 | The width in metres is non-negative for a non-negative width, zero exactly when the width is zero, positive exactly when it is positive, and unchanged for metres. |
| Units.FromMeters | main.py:430 | The inverse conversion keeps non-negative lengths non-negative. |
| Units.WidthRoundTrip | main.py:430 | Converting a width to metres and back gives the entered width, for CM (÷100), IN (×0.0254) and M. |
| Units.MetersRoundTrip | main.py:430 | Converting a metre length into any unit and back gives it back. |
| Units.GlmToGsm | main.py:441 | The GLM-derived GSM times the width is the GLM figure when the width is positive. It is 0, with no division, when the width is not positive. It is non-negative for a non-negative weight. |
| Units.Normalize | main.py:434-445 | The GSM in g/m² is always the kg/m² density × 1000. GSM g/m² input keeps its figure and GSM kg/m² input keeps its density. For GLM with positive width, GSM × width is the input and kg/m × 1000 is the input, so the width cancels. For GLM with non-positive width, GSM and kg/m are 0. Non-negative inputs give a non-negative density and kg/m. |
| Units.KgPerMeterIsLinearDensity | main.py:434-445 | kg/m × 1000 equals the grams per running metre read directly off the entry: weight × width for g/m², weight × 1000 × width for kg/m², and the GLM figure (0 at non-positive width). |
| Units.RenormalizeThroughGsm | main.py:434-445 | Re-entering the derived GSM as a g/m² weight with the same width reproduces the same normalised densities, for every weight type. |
| Rates.RouteRate | main.py:453 | The plain nested lookup is present exactly when country, origin and destination are all keys, and then it is the table's rate. |
| Rates.LookupRate | main.py:448-456 | The guarded lookup raises KeyError(item country) exactly when the guard country is a key and the item's country is not. It yields a rate exactly when the guard country is a key and the route is served, and that rate is the table's. Otherwise it yields None without raising. |
| Rates.OwnCountryGuardIsRouteRate | main.py:452-456 | When the guard tests the item's own country, the lookup never raises and equals the plain nested lookup. |
| Rates.GuardMismatch | main.py:452-456 | The guarded lookup differs from the plain lookup exactly when the guard country is a key and the item's country is not (KeyError), or when the guard country is not a key and the route is served (a hidden route). |
| Rates.KeyErrorExample | main.py:452-453 | A main country present and an item country absent raise KeyError on that country. |
| Rates.HiddenRouteExample | main.py:452-453 | A served route is reported as None when the main country is not a key. |
| Pricing.CbmPerMeter | main.py:470 | The cubic metres per metre times 166 give back the kilograms per metre. |
| Pricing.FinalAir | main.py:465-467 | The final air price is non-negative for non-negative rate and weight, and 0 when either is 0. For a positive rate, dividing the price by rate × 1.2 recovers the kg per metre. |
| Pricing.FinalSea | main.py:469-472 | The final sea price is non-negative for non-negative inputs and 0 when either is 0. Price × 166 equals rate × kg/m × 1.3. |
| Pricing.FinalAirMonotone | main.py:465-467 | For a non-negative air rate, more kg per metre never gives a lower final air price. |
| Pricing.FinalSeaMonotone | main.py:469-472 | For a non-negative sea rate, more kg per metre never gives a lower final sea price. |
| Pricing.AirPrice | main.py:458-467 | A final air price exists exactly when the air base rate does, and it is the marked-up air price of that rate. |
| Pricing.SeaPrice | main.py:459-472 | A final sea price exists exactly when the sea base rate does, and it is the marked-up sea price of that rate. |
| Quote.Quotation.FinalAirRate | main.py:462-467 | A quotation has a final air price exactly when it has an air base rate, and the price is the marked-up air price of that rate at the quotation's kg/m. |
| Quote.Quotation.FinalSeaRate | main.py:462-472 | A quotation has a final sea price exactly when it has a sea base rate, and the price is the marked-up sea price of that rate at the quotation's kg/m. |
| Quote.Evaluate | main.py:428-472 | An item raises KeyError(item country) exactly when, for air or for sea, the guard country is a key and the item's country is not. Otherwise the width is converted and the weight normalised at that width. Each base rate is present exactly when the guard country is a key and the route is served, and it is then the table's rate. Non-negative inputs give non-negative kg/m. |
| Quote.MainItemNeverFails | main.py:452-456 | The main item, evaluated against its own country, never raises, and each mode is the plain route lookup. |
| Quote.UnservedRouteHasNoPrices | main.py:448-472 | A main item whose route neither table serves still gets a quotation, with no final air or sea price. |
| Quote.GsmExample | main.py:430-467 | 150 g/m² at 160 cm with air rate 3.50 and no sea rate gives 1.6 m, 0.24 kg/m, a final air price of 1.008 and no sea price. |
| Quote.ZeroWidthGlmExample | main.py:430-467 | 100 g/m GLM at zero width gives GSM 0, 0 kg/m and a served route priced at 0. |
| Records.LabelInjective | main.py:476-516 | Distinct columns have distinct key strings, so a record keyed by column is the source's dictionary keyed by string. |
| Records.NatToString | main.py:476 | The item number's decimal text is non-empty and made of digits, its decimal value is the number itself, and it starts with "0" only when it is "0" itself, so it is exactly Python's decimal form. |
| Records.NatToStringInjective | main.py:476 | Different item numbers have different decimal texts. |
| Records.ItemLabel | main.py:476 | The label of the item at position k is "Item " followed by decimal digits whose value is k+1 and whose first digit is not 0, which is exactly "Item k+1". |
| Records.ItemLabelsDistinct | main.py:476 | Items at different positions get different "Item k+1" labels. |
| Records.Visible | main.py:495-516 | Every column other than the four rate columns is shown to both roles. A base-rate column is shown only to Admin, and a rate column of either kind only when its mode's base rate is available. |
| Records.FieldValue | main.py:476-516 | A column's value is None exactly for Converted GSM on non-GLM input and for the rate columns of an unavailable mode. |
| Records.ShapeRecord | main.py:475-516 | Every record has all fifteen non-rate columns: the item label, the user and e-mail, supplier, SQN, country, origin, destination, weight value and type, Converted GSM, width, unit, Width (m) and Weight/m. The base-rate columns are present exactly for Admin when the mode is available. The final-rate columns are present, for either role, exactly when the final price exists. |
| Records.RecordValues | main.py:476-490 | The label is "Item k+1". Width (m) and Weight/m are the width in metres rounded to 4 places and the kg/m rounded to 6. Converted GSM is non-null exactly for GLM input, and then it is the GSM rounded to 2 places. |
| Records.RateValues | main.py:495-516 | Each visible rate column holds its rate: the base rate rounded to 2 places, or the final price rounded to 4. |
| Records.EchoedParties | main.py:477-483 | The User, User Email, Supplier, SQN, Country, Origin and Destination columns hold the viewer's name and e-mail and the item's supplier, SQN and route unchanged. |
| Records.EchoedMeasurements | main.py:484-488 | The Weight Value, Weight Type, Width and Unit columns hold the entered weight, its type label, the entered width and its unit label unchanged. |
| Records.RoleGating | main.py:495-516 | For the same item, the Business columns are a subset of the Admin columns with identical values. The difference is exactly the base-rate columns of the available modes. The subset is strict exactly when some mode is available. |
| Records.AvailabilityFromKeys | main.py:675-695 | Re-deriving availability from the record's columns ("base or final rate present") gives the lookup's availability, for both roles. |
| Batch.ItemOutcome | main.py:428-518 | An item's outcome succeeds exactly when its evaluation does. A failure carries KeyError(item country). |
| Batch.Collect | main.py:428-518 | Walking the items in order succeeds exactly when every item succeeds, giving one result per item, in order. Otherwise it returns the error of the first failing item, all earlier items having succeeded. |
| Batch.QuoteBatch | main.py:428-518 | With the main item's country as every item's guard, the batch succeeds exactly when no item raises. It then returns one record per item, in input order, each the item's own record. Otherwise the error is KeyError of the first failing item's country. |
| Batch.BatchRecordLabels | main.py:476-490 | In a successful batch the k-th record is labelled "Item k+1" and, whatever the role, holds every column other than the four rate columns. |
| Batch.BatchLabelsDistinct | main.py:476 | In a successful batch, no two records carry the same label. |
| Batch.MainItemOutcomeSucceeds | main.py:452-456 | The main item's own outcome never raises, so a failing batch fails at an added item. |
| Batch.KnownCountriesNeverFail | main.py:452-456 | When every item's country is a key of both tables, no item raises, whatever the main country. |
| Batch.SameCountryNeverFails | main.py:452-456 | When every item shares the main item's country, no item raises. |

## Left out

- The Streamlit user interface: forms, session state, and adding or removing rows (main.py:106-420, 520-767).
  The engine takes the item list and the role as values.
- Login and auto-registration of Business users (main.py:12-29, 120-151). The model takes the role (`Admin` or
  `Business`, the only two the login sets) and the viewer's display name and e-mail as inputs.
- `load_rate_tables` (main.py:38-91). It performs network and spreadsheet I/O. The model takes the two nested
  rate maps it returns as values. A spreadsheet cell that is empty reaches the engine as NaN, not `None`, and so
  counts as an available rate. That float behaviour is not modelled: rates are reals.
- The summary table, HTML and markdown rendering, and the confirmation texts (main.py:520-767). These format
  strings for display only.
- Python's binary floating point, its `round` (banker's rounding on binary values) and the `:.4f` formatting.
  Values are exact reals, and rounding is the parameter `rnd`, about which nothing is assumed.
- The insertion order of the result dictionary. A Dafny map is unordered, so column order in the display is not
  modelled.
- Units.WidthMeters: the source maps every unit string other than "CM" and "IN" to metres. The model has only
  the three units the form offers.
- Units.Normalize: the source treats every weight-type string other than the two GSM labels as GLM. The model
  has only the three types the form offers.
