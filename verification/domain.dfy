/** Records and constants shared by every component of the delivery ledger
    (src/lib/types.ts plus the fields the components read). */
module Domain {

  datatype Option<+T> = None | Some(value: T) {
    function GetOr(default: T): T {
      match this
      case Some(v) => v
      case None => default
    }
  }

  /** The outcome of an operation that can be refused. */
  datatype Result<+T, +E> = Success(value: T) | Failure(error: E)

  /** An instant in milliseconds of local wall-clock time (a JavaScript `Date`
      read in the browser's time zone). */
  type Time = int

  const DayMs: int := 86_400_000

  /** Pay per parcel to a courier (`DELIVERY_BOY_RATE`). */
  const DeliveryBoyRate: int := 14

  /** What the contracting company pays per delivered parcel on the main
      dashboard (`COMPANY_RATE`). */
  const CompanyRate: int := 19

  /** The courier selector's "no filter" sentinel. */
  const AllBoys: string := "All"

  /** One courier's day of work.  The components disagree on the shape; this
      is the superset of every field any of them reads.  `codCollected` is
      optional because only the declared type carries it: entries built by
      the delivery form and the demo data never do. */
  datatype Entry = Entry(
    id: string,
    date: Time,
    deliveryBoyName: string,
    pincode: string,
    delivered: int,
    returned: int,
    rvp: int,
    expectedCod: int,
    actualCodCollected: int,
    codCollected: Option<int>,
    codShortageReason: Option<string>,
    advance: int)

  /** Cash advanced to a courier apart from any delivery entry. */
  datatype Advance = Advance(id: string, date: Time, deliveryBoyName: string, amount: int)

  /** An entry of the courier directory. */
  datatype DeliveryBoy = DeliveryBoy(id: string, name: string, createdAt: Time)

  /** Number of the local calendar day holding `t` (days since the epoch). */
  function DayOf(t: Time): int {
    t / DayMs
  }

  /** `setHours(23, 59, 59, 999)`: the last millisecond of `t`'s day. */
  function EndOfDay(t: Time): (e: Time)
    ensures t <= e
    ensures DayOf(e) == DayOf(t)
    ensures forall u :: DayOf(u) == DayOf(t) ==> u <= e
    ensures DayOf(e + 1) == DayOf(t) + 1
  {
    DayOf(t) * DayMs + (DayMs - 1)
  }

  // Field readers, passed to the generic folds and filters.

  function EntryDate(e: Entry): Time { e.date }
  function EntryName(e: Entry): string { e.deliveryBoyName }
  function AdvanceDate(a: Advance): Time { a.date }
  function AdvanceName(a: Advance): string { a.deliveryBoyName }
  function AdvanceAmount(a: Advance): int { a.amount }
  function Delivered(e: Entry): int { e.delivered }
  function Rvp(e: Entry): int { e.rvp }
  function ActualCod(e: Entry): int { e.actualCodCollected }
  function OnSpotAdvance(e: Entry): int { e.advance }

  /** Parcels that earn pay: delivered plus reverse pickups. */
  function Work(e: Entry): int { e.delivered + e.rvp }

  /** Expected minus collected COD, as the payout formulas use it (not
      clamped: an over-collection lowers it below zero). */
  function CodGap(e: Entry): int { e.expectedCod - e.actualCodCollected }
}
