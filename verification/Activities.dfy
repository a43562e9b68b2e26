/** The provider-neutral account activity that every other module works on.

  Dates are day numbers, a blank date is `None`, and a decimal amount is the
  integer that its canonical text denotes once scaled by 10^18 (see `Decimal`).
  Equality of two activities stands for equality of their stored JSON. */
module Activities {

  datatype Option<+T> = None | Some(value: T)

  type Day = int

  datatype Status = Effective | Voided | NeedsReview | Unsupported
  datatype Booking = Booked | Provisional
  datatype Provider = Ibkr | SchwabBroker | AlpacaBroker
  datatype LegKind = Cash | Position

  /** `instrument == 0` means that the security is unresolved. */
  datatype Leg = Leg(
    kind: LegKind,
    component: string,
    instrument: nat,
    currency: string,
    amount: int,
    effective: Option<Day>,
    settlement: Option<Day>)

  datatype CostAdjustment = CostAdjustment(
    instrument: nat,
    currency: string,
    basisDelta: Option<int>,
    basisBefore: Option<int>,
    basisAfter: Option<int>,
    allocation: string,
    evidence: string)

  datatype Occurrence = Occurrence(day: Day, clock: int)

  /** `detail` stands for the descriptive fields that no rule reads. The list of
    sources is left out: every stored payload carries it empty, and every
    comparison overwrites it first. */
  datatype Activity = Activity(
    id: nat,
    account: nat,
    provider: Provider,
    providerAccount: string,
    kind: string,
    status: Status,
    booking: Booking,
    tradeDate: Option<Day>,
    settlementDate: Option<Day>,
    occurredAt: Option<Occurrence>,
    revision: nat,
    legs: seq<Leg>,
    costs: seq<CostAdjustment>,
    warnings: seq<string>,
    detail: int)

  /** Only effective, booked activities move money or securities. */
  predicate Counts(a: Activity) {
    a.status.Effective? && a.booking.Booked?
  }

  function OccurredDay(a: Activity): Option<Day> {
    match a.occurredAt
    case Some(o) => Some(o.day)
    case None => None
  }

  function FirstDate(a: Option<Day>, b: Option<Day>): Option<Day> {
    if a.Some? then a else b
  }

  /** The day on which a leg takes effect. */
  function LegDate(a: Activity, leg: Leg): Option<Day> {
    FirstDate(leg.effective,
      FirstDate(leg.settlement,
        FirstDate(a.settlementDate, FirstDate(a.tradeDate, OccurredDay(a)))))
  }

  function EarlierDate(a: Option<Day>, b: Option<Day>): Option<Day> {
    if b.None? || (a.Some? && a.value <= b.value) then a else b
  }

  /** `d` is on or before `day`, when `day` is known at all. */
  predicate NotAfter(d: Option<Day>, day: Option<Day>) {
    day.Some? ==> d.Some? && d.value <= day.value
  }

  function EarliestLeg(legs: seq<Leg>): Option<Day> {
    if legs == [] then None
    else EarlierDate(EarliestLeg(legs[..|legs| - 1]),
                     FirstDate(legs[|legs| - 1].effective, legs[|legs| - 1].settlement))
  }

  /** The boundary from which a change to `a` can alter a daily valuation. */
  function EarliestOf(a: Activity): Option<Day> {
    EarlierDate(EarlierDate(EarlierDate(EarliestLeg(a.legs), a.settlementDate), a.tradeDate), OccurredDay(a))
  }

  lemma {:induction false} EarliestLegIsLowerBound(legs: seq<Leg>, i: nat)
    requires i < |legs|
    ensures NotAfter(EarliestLeg(legs), FirstDate(legs[i].effective, legs[i].settlement))
  {
    if i < |legs| - 1 {
      EarliestLegIsLowerBound(legs[..|legs| - 1], i);
      assert legs[..|legs| - 1][i] == legs[i];
    }
  }

  /** No dated leg of an activity falls before the activity's dirty boundary,
    although the two are computed by different rules. */
  lemma LegNotBeforeBoundary(a: Activity, i: nat)
    requires i < |a.legs|
    ensures NotAfter(EarliestOf(a), LegDate(a, a.legs[i]))
  {
    EarliestLegIsLowerBound(a.legs, i);
  }
}
