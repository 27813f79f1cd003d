/** The fixed redemption plan of the demo fixture (prisma/insights-demo-fixture.ts). */
module DemoRedemptions {
  import opened Base
  import opened Text

  datatype Daypart = Daypart(startHour: int, endHour: int)
  datatype VoucherType = BOGO | SPEND_AND_SAVE | DISCOUNT_FIXED | DISCOUNT_PERCENT | FREEBIE | PACKAGE_DEAL | TIME_LIMITED | REUSABLE
  datatype DemoVoucher = DemoVoucher(code: string, kind: VoucherType, title: string, estimatedSaving: real)
  datatype ValidationMethod = PIN | QR_SCAN | MANUAL

  /** A redemption row without its id. Instants are milliseconds since the epoch. */
  datatype Redemption = Redemption(
    userId: nat,
    voucherId: nat,
    branchId: nat,
    redemptionCode: string,
    redeemedAt: int,
    isValidated: bool,
    validatedAt: Option<int>,
    validationMethod: Option<ValidationMethod>,
    estimatedSaving: real,
    isTestData: bool)

  const DAYPARTS: seq<Daypart> := [
    Daypart(0, 7), Daypart(7, 12), Daypart(12, 15), Daypart(15, 18), Daypart(18, 22), Daypart(22, 24)]

  const DEMO_VOUCHERS: seq<DemoVoucher> := [
    DemoVoucher("INSIGHTS-DEMO-BOGO", BOGO, "Buy one main, get one free", 12.5),
    DemoVoucher("INSIGHTS-DEMO-SAS", SPEND_AND_SAVE, "Spend GBP 30, save GBP 5", 5.0),
    DemoVoucher("INSIGHTS-DEMO-DISCF", DISCOUNT_FIXED, "GBP 4 off any bill", 4.0),
    DemoVoucher("INSIGHTS-DEMO-DISCP", DISCOUNT_PERCENT, "15% off the food bill", 7.25),
    DemoVoucher("INSIGHTS-DEMO-FREE", FREEBIE, "Free side with any main", 3.5),
    DemoVoucher("INSIGHTS-DEMO-PKG", PACKAGE_DEAL, "Two courses for GBP 18", 9.0),
    DemoVoucher("INSIGHTS-DEMO-TL", TIME_LIMITED, "Happy-hour mocktail deal", 6.0),
    DemoVoucher("INSIGHTS-DEMO-REUSE", REUSABLE, "Loyalty coffee top-up", 2.5)]

  const VALIDATION_METHODS: seq<ValidationMethod> := [PIN, QR_SCAN, MANUAL]
  const DEMO_DAYS: nat := 14
  const MINUTE: int := 60 * 1000
  const HOUR: int := 60 * MINUTE
  const DAY: int := 24 * HOUR

  /** `Date.UTC(2026, 1, 2)` */
  const DEMO_EPOCH: int := 1769990400000

  function DemoRedeemedAt(dayOffset: nat, hour: int): int {
    DEMO_EPOCH + dayOffset * DAY + hour * HOUR
  }

  function MidHour(d: Daypart): int {
    var middle := (d.startHour + d.endHour) / 2;
    if d.endHour - 1 < middle then d.endHour - 1 else middle
  }

  // ---------------------------------------------------------------- codes

  function RedemptionCode(k: nat): string {
    "IDEMO-" + PadStart(Decimal(k), 5)
  }

  /** Different sequence numbers have different codes. */
  lemma CodesAreDistinct(j: nat, k: nat)
    ensures RedemptionCode(j) == RedemptionCode(k) <==> j == k
  {
    if RedemptionCode(j) == RedemptionCode(k) {
      assert PadStart(Decimal(j), 5) == RedemptionCode(j)[6..] == RedemptionCode(k)[6..] == PadStart(Decimal(k), 5);
      PaddingKeepsValue(Decimal(j), 5);
      PaddingKeepsValue(Decimal(k), 5);
      DecimalValue(j);
      DecimalValue(k);
    }
  }

  /** Every planned code has eleven characters, within the column's 24. */
  lemma CodeLength(k: nat)
    requires k < 100000
    ensures |RedemptionCode(k)| == 11
  {
    assert PowerOfTen(3) == 1000;
    assert PowerOfTen(5) == 100000;
    DecimalLength(k, 5);
    PaddedLength(Decimal(k), 5);
  }

  // ---------------------------------------------------------------- the plan

  /** The cell (dayOffset, dpIndex) with running number `sequence`. */
  function PlannedAt(dayOffset: nat, dpIndex: nat, sequence: nat, branchIds: seq<nat>, voucherIds: seq<nat>, userIds: seq<nat>): Redemption
    requires dpIndex < |DAYPARTS| && branchIds != [] && voucherIds != [] && userIds != []
  {
    var redeemedAt := DemoRedeemedAt(dayOffset, MidHour(DAYPARTS[dpIndex]));
    var isValidated := sequence % 2 == 0;
    Redemption(
      userIds[(dayOffset + dpIndex * 2) % |userIds|],
      voucherIds[(dayOffset * |DAYPARTS| + dpIndex) % |voucherIds|],
      branchIds[(dayOffset + dpIndex) % |branchIds|],
      RedemptionCode(sequence),
      redeemedAt,
      isValidated,
      if isValidated then Some(redeemedAt + 5 * MINUTE) else None,
      if isValidated then Some(VALIDATION_METHODS[sequence % |VALIDATION_METHODS|]) else None,
      DEMO_VOUCHERS[(dayOffset * |DAYPARTS| + dpIndex) % |DEMO_VOUCHERS|].estimatedSaving,
      true)
  }

  datatype DayAndPart = DayAndPart(day: nat, part: nat)

  /** The day and the part of the day of row `k`, six parts a day. */
  function Cell(k: nat): (c: DayAndPart)
    ensures c.part < |DAYPARTS| == 6 && k == 6 * c.day + c.part
  {
    if k < 6 then DayAndPart(0, k) else DayAndPart(Cell(k - 6).day + 1, Cell(k - 6).part)
  }

  const PLANNED_COUNT: nat := DEMO_DAYS * |DAYPARTS|

  function Planned(branchIds: seq<nat>, voucherIds: seq<nat>, userIds: seq<nat>): (rows: seq<Redemption>)
    requires branchIds != [] && voucherIds != [] && userIds != []
    ensures |rows| == PLANNED_COUNT == 84
    ensures forall k | 0 <= k < |rows| :: rows[k] == PlannedAt(Cell(k).day, Cell(k).part, k, branchIds, voucherIds, userIds)
  {
    seq(PLANNED_COUNT, k requires 0 <= k => PlannedAt(Cell(k).day, Cell(k).part, k, branchIds, voucherIds, userIds))
  }

  lemma PrefixGrows(planned: seq<Redemption>, rows: seq<Redemption>, row: Redemption)
    requires planned <= rows && |planned| < |rows| && rows[|planned|] == row
    ensures planned + [row] <= rows
  {
  }

  /** The two planning loops. */
  method PlanRedemptions(branchIds: seq<nat>, voucherIds: seq<nat>, userIds: seq<nat>) returns (planned: seq<Redemption>)
    requires branchIds != [] && voucherIds != [] && userIds != []
    ensures planned == Planned(branchIds, voucherIds, userIds)
  {
    planned := [];
    ghost var rows := Planned(branchIds, voucherIds, userIds);
    var sequence := 0;
    for dayOffset := 0 to DEMO_DAYS
      invariant sequence == |planned| == 6 * dayOffset && planned <= rows
    {
      for dpIndex := 0 to |DAYPARTS|
        invariant sequence == |planned| == 6 * dayOffset + dpIndex && planned <= rows
      {
        PlannedCell(branchIds, voucherIds, userIds, dayOffset, dpIndex);
        var row := PlannedAt(dayOffset, dpIndex, sequence, branchIds, voucherIds, userIds);
        PrefixGrows(planned, rows, row);
        planned := planned + [row];
        sequence := sequence + 1;
      }
    }
  }

  /** The plan: test rows only, on the given branches, vouchers and users, each code once. */
  lemma PlanIsOnDemoRows(branchIds: seq<nat>, voucherIds: seq<nat>, userIds: seq<nat>, k: nat)
    requires branchIds != [] && voucherIds != [] && userIds != [] && k < PLANNED_COUNT
    ensures var row := Planned(branchIds, voucherIds, userIds)[k];
      && row.isTestData && row.branchId in branchIds && row.voucherId in voucherIds && row.userId in userIds
      && forall j | 0 <= j < PLANNED_COUNT && j != k :: Planned(branchIds, voucherIds, userIds)[j].redemptionCode != row.redemptionCode
  {
    forall j: nat | j < PLANNED_COUNT && j != k ensures Planned(branchIds, voucherIds, userIds)[j].redemptionCode != RedemptionCode(k) {
      CodesAreDistinct(j, k);
    }
  }

  /** Each of the 14 days has exactly one planned redemption in each part of the day. */
  lemma EveryDaypartOfEveryDayOnce(branchIds: seq<nat>, voucherIds: seq<nat>, userIds: seq<nat>, day: nat, part: nat, k: nat)
    requires branchIds != [] && voucherIds != [] && userIds != []
    requires day < 14 && part < |DAYPARTS| && k < PLANNED_COUNT
    ensures var start := 1769990400000 + day * 24 * HOUR;
      (start + DAYPARTS[part].startHour * HOUR <= Planned(branchIds, voucherIds, userIds)[k].redeemedAt < start + DAYPARTS[part].endHour * HOUR
       <==> k == day * |DAYPARTS| + part)
  {
    InPartExactly(Cell(k).day, Cell(k).part, day, part);
  }

  lemma InPartExactly(d: nat, p: nat, day: nat, part: nat)
    requires p < |DAYPARTS| && part < |DAYPARTS|
    ensures var start := 1769990400000 + day * 24 * HOUR;
      (start + DAYPARTS[part].startHour * HOUR <= DemoRedeemedAt(d, MidHour(DAYPARTS[p])) < start + DAYPARTS[part].endHour * HOUR
       <==> 6 * d + p == 6 * day + part)
  {
    if p != part {
      PartsAreDisjoint(p, part);
    }
    MidHourWithin(p);
    MidHourWithin(part);
    SameDaySamePart(d, MidHour(DAYPARTS[p]), day, DAYPARTS[part].startHour, DAYPARTS[part].endHour);
  }

  /** The row of one day and part of the day. */
  lemma PlannedCell(branchIds: seq<nat>, voucherIds: seq<nat>, userIds: seq<nat>, d: nat, p: nat)
    requires branchIds != [] && voucherIds != [] && userIds != [] && d < DEMO_DAYS && p < |DAYPARTS|
    ensures 6 * d + p < PLANNED_COUNT
    ensures Planned(branchIds, voucherIds, userIds)[6 * d + p] == PlannedAt(d, p, 6 * d + p, branchIds, voucherIds, userIds)
  {
    assert Cell(6 * d + p) == DayAndPart(d, p);
  }

  lemma PartsAreDisjoint(p: nat, q: nat)
    requires p < |DAYPARTS| && q < |DAYPARTS| && p != q
    ensures MidHour(DAYPARTS[p]) < DAYPARTS[q].startHour || MidHour(DAYPARTS[p]) >= DAYPARTS[q].endHour
  {
  }

  lemma SameDaySamePart(d: nat, hour: int, day: nat, start: int, end: int)
    requires 0 <= hour < 24 && 0 <= start <= end <= 24
    ensures day * DAY + start * HOUR <= d * DAY + hour * HOUR < day * DAY + end * HOUR <==> d == day && start <= hour < end
  {
    assert DAY == 24 * HOUR && HOUR == 3600000;
    if d < day {
      assert d * DAY + hour * HOUR < day * DAY;
    } else if d > day {
      assert d * DAY >= day * DAY + DAY;
    }
  }

  /** The hour of a part of the day is the whole hour at or just before its middle. */
  lemma MidHourIsTheMiddle(d: Daypart)
    requires 0 <= d.startHour < d.endHour
    ensures d.startHour <= MidHour(d) < d.endHour && 2 * MidHour(d) <= d.startHour + d.endHour <= 2 * MidHour(d) + 1
  {
  }

  lemma MidHourWithin(p: nat)
    requires p < |DAYPARTS|
    ensures 0 <= DAYPARTS[p].startHour <= MidHour(DAYPARTS[p]) < DAYPARTS[p].endHour <= 24
  {
  }

  /**
   * Every other planned redemption is validated, five minutes after it, by one of the three methods
   * in turn; the others are not, by none. With a voucher id for each demo voucher, it saves what the
   * voucher it redeems saves.
   */
  lemma ValidationAndSavings(branchIds: seq<nat>, voucherIds: seq<nat>, userIds: seq<nat>, k: nat)
    requires branchIds != [] && |voucherIds| == |DEMO_VOUCHERS| && userIds != [] && k < PLANNED_COUNT
    ensures var row := Planned(branchIds, voucherIds, userIds)[k];
      && (if k % 2 == 0 then row.isValidated && row.validatedAt == Some(row.redeemedAt + 300000) && row.validationMethod.Some?
          else !row.isValidated && row.validatedAt == None && row.validationMethod == None)
      && exists v | 0 <= v < |DEMO_VOUCHERS| :: row.voucherId == voucherIds[v] && row.estimatedSaving == DEMO_VOUCHERS[v].estimatedSaving
  {
    var v := k % |DEMO_VOUCHERS|;
    assert Cell(k).day * 6 + Cell(k).part == k;
  }

  /** Every validation method is used. */
  lemma EveryMethodIsUsed(branchIds: seq<nat>, voucherIds: seq<nat>, userIds: seq<nat>, method_: ValidationMethod)
    requires branchIds != [] && voucherIds != [] && userIds != []
    ensures exists k | 0 <= k < PLANNED_COUNT :: Planned(branchIds, voucherIds, userIds)[k].validationMethod == Some(method_)
  {
    var rows := Planned(branchIds, voucherIds, userIds);
    assert rows[0].validationMethod == Some(PIN) && rows[4].validationMethod == Some(QR_SCAN) && rows[2].validationMethod == Some(MANUAL);
  }

  /** Every demo branch, voucher and customer takes part. */
  lemma EveryoneTakesPart(branchIds: seq<nat>, voucherIds: seq<nat>, userIds: seq<nat>, b: nat, v: nat, u: nat)
    returns (i: nat, j: nat, k: nat)
    requires b < |branchIds| <= 14 && v < |voucherIds| <= 84 && u < |userIds| <= 14
    ensures i < PLANNED_COUNT && Planned(branchIds, voucherIds, userIds)[i].branchId == branchIds[b]
    ensures j < PLANNED_COUNT && Planned(branchIds, voucherIds, userIds)[j].voucherId == voucherIds[v]
    ensures k < PLANNED_COUNT && Planned(branchIds, voucherIds, userIds)[k].userId == userIds[u]
  {
    i, j, k := 6 * b, v, 6 * u;
    FirstOfTheDay(branchIds, voucherIds, userIds, b);
    FirstOfTheDay(branchIds, voucherIds, userIds, u);
    VoucherInTurn(branchIds, voucherIds, userIds, v);
    SmallRemainder(b, |branchIds|);
    SmallRemainder(u, |userIds|);
    SmallRemainder(v, |voucherIds|);
  }

  lemma VoucherInTurn(branchIds: seq<nat>, voucherIds: seq<nat>, userIds: seq<nat>, k: nat)
    requires branchIds != [] && voucherIds != [] && userIds != [] && k < PLANNED_COUNT
    ensures Planned(branchIds, voucherIds, userIds)[k].voucherId == voucherIds[k % |voucherIds|]
  {
    assert Cell(k).day * |DAYPARTS| + Cell(k).part == k;
  }

  lemma FirstOfTheDay(branchIds: seq<nat>, voucherIds: seq<nat>, userIds: seq<nat>, d: nat)
    requires branchIds != [] && voucherIds != [] && userIds != [] && d < DEMO_DAYS
    ensures 6 * d < PLANNED_COUNT
    ensures Planned(branchIds, voucherIds, userIds)[6 * d].branchId == branchIds[d % |branchIds|]
    ensures Planned(branchIds, voucherIds, userIds)[6 * d].userId == userIds[d % |userIds|]
  {
    PlannedCell(branchIds, voucherIds, userIds, d, 0);
  }

  lemma SmallRemainder(x: nat, n: nat)
    requires x < n
    ensures x % n == x
  {
  }
}
